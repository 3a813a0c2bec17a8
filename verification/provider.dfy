/**
  One client of the auth provider together with the shared cycle document it listens to.
  The client holds the session flags, the cached cycle record, and the snapshot listener that
  the gating effect opens while a role flag is raised; the document is overwritten by this
  client's switchers and by other clients.
*/
module Provider {
  import opened Wrappers
  import opened CycleState
  import opened Session

  /**
    `listening` says whether the gating effect's last run opened a snapshot listener (its
    `unsub` is a real one); `live` counts the listeners this client has open in the store.
  */
  datatype Client = Client(flags: Flags, listening: bool, live: nat, cache: CycleRecord)

  datatype World = World(client: Client, doc: CycleRecord)

  datatype Event =
    | Auth(e: AuthEvent)
      // the store pushes the current document to this client's open listener
    | Push
      // this client calls handleSetAppState; `stored` says whether the store takes the write
    | SetAppStateCall(switcher: string, week: Option<Week>, stored: bool)
      // another client overwrites the shared document
    | RemoteWrite(rec: CycleRecord)

  const Mounted := Client(SignedOut, false, 0, Initial)

  /**
    The gating effect re-runs when `authAdmin` or `authUser` changed: its cleanup calls the
    previous `unsub` (closing the listener if there was one, a no-op otherwise), then it opens
    a new listener iff a role flag is raised.
  */
  function Regate(c: Client, before: Flags): (r: Client)
    requires c.listening ==> c.live >= 1
    ensures r.flags == c.flags && r.cache == c.cache
    ensures before.authAdmin == c.flags.authAdmin && before.authUser == c.flags.authUser ==> r == c
    ensures (before.authAdmin != c.flags.authAdmin || before.authUser != c.flags.authUser) ==>
      r.listening == Authorized(c.flags)
    ensures r.live == c.live - (if c.listening then 1 else 0) + (if r.listening then 1 else 0)
  {
    if before.authAdmin == c.flags.authAdmin && before.authUser == c.flags.authUser then c
    else
      var closed := if c.listening then c.live - 1 else c.live;
      var open := Authorized(c.flags);
      c.(listening := open, live := if open then closed + 1 else closed)
  }

  function Step(w: World, ev: Event): (r: World)
    requires w.client.listening ==> w.client.live >= 1
    // auth events move the flags and the listener only
    ensures ev.Auth? ==> r.doc == w.doc && r.client.cache == w.client.cache
    ensures ev.Auth? ==> r.client.flags == Session.Step(w.client.flags, ev.e).flags
    // a snapshot reaches the cache only through an open listener, and then copies the document
    ensures ev.Push? && w.client.listening ==> r == w.(client := w.client.(cache := w.doc))
    ensures ev.Push? && !w.client.listening ==> r == w
    // a switcher call builds on the cache the client holds and touches only the document
    ensures ev.SetAppStateCall? ==> r.client == w.client
    ensures ev.SetAppStateCall? && r.doc != w.doc ==>
      Transition(ev.switcher, ev.week, w.client.cache) == Success(Some(r.doc))
    ensures ev.RemoteWrite? ==> r == w.(doc := ev.rec)
  {
    match ev
    case Auth(e) =>
      var flags := Session.Step(w.client.flags, e).flags;
      w.(client := Regate(w.client.(flags := flags), w.client.flags))
    case Push =>
      if w.client.listening then w.(client := w.client.(cache := OnPush(w.client.cache, w.doc))) else w
    case SetAppStateCall(switcher, week, stored) =>
      w.(doc := SetAppState(switcher, week, w.client.cache, w.doc, stored).doc)
    case RemoteWrite(rec) =>
      w.(doc := rec)
  }

  /**
    The listener bookkeeping the gate keeps: the count of open listeners is exactly the one the
    effect holds, and the effect holds one iff a role flag is raised.
  */
  predicate Gated(c: Client) {
    && c.live == (if c.listening then 1 else 0)
    && (c.listening <==> Authorized(c.flags))
  }

  /** Every event keeps the gate invariant; switchers and remote writes leave the client untouched. */
  lemma StepKeepsGated(w: World, ev: Event)
    requires Gated(w.client)
    ensures Gated(Step(w, ev).client)
    ensures ev.SetAppStateCall? || ev.RemoteWrite? ==> Step(w, ev).client == w.client
  {
  }

  function Run(w: World, events: seq<Event>): World
    requires Gated(w.client)
    decreases |events|
  {
    if events == [] then w
    else
      StepKeepsGated(w, events[0]);
      Run(Step(w, events[0]), events[1..])
  }

  /**
    From any gated state, after any events: at most one listener is open, and one is open
    exactly while `authAdmin || authUser`.
  */
  lemma {:induction false} RunKeepsGated(w: World, events: seq<Event>)
    requires Gated(w.client)
    ensures Gated(Run(w, events).client)
    ensures Run(w, events).client.live <= 1
    ensures Run(w, events).client.live == 1 <==> Authorized(Run(w, events).client.flags)
    decreases |events|
  {
    if events != [] {
      StepKeepsGated(w, events[0]);
      RunKeepsGated(Step(w, events[0]), events[1..]);
    }
  }

  lemma MountedIsGated()
    ensures Gated(Mounted)
  {
  }

  /** The documents the client's listener received along a run, oldest first. */
  function Delivered(w: World, events: seq<Event>): seq<CycleRecord>
    requires Gated(w.client)
    decreases |events|
  {
    if events == [] then []
    else
      StepKeepsGated(w, events[0]);
      (if events[0].Push? && w.client.listening then [w.doc] else []) + Delivered(Step(w, events[0]), events[1..])
  }

  /**
    The cache only ever changes by a delivered snapshot: after any events it is the last
    document delivered, or what it was before when nothing was delivered.
  */
  lemma {:induction false} CacheIsLastDelivered(w: World, events: seq<Event>)
    requires Gated(w.client)
    ensures var d := Delivered(w, events);
      Run(w, events).client.cache == if d == [] then w.client.cache else d[|d| - 1]
    decreases |events|
  {
    if events != [] {
      StepKeepsGated(w, events[0]);
      CacheIsLastDelivered(Step(w, events[0]), events[1..]);
    }
  }

  /** A switcher call never changes the client; what it changes is the shared document only. */
  lemma SetAppStateLeavesClient(w: World, switcher: string, week: Option<Week>, stored: bool)
    requires Gated(w.client)
    ensures Step(w, SetAppStateCall(switcher, week, stored)).client == w.client
    ensures IsSwitcher(switcher) && stored && Transition(switcher, week, w.client.cache).Success? ==>
      Step(w, SetAppStateCall(switcher, week, stored)).doc == Transition(switcher, week, w.client.cache).value.value
  {
  }

  /**
    An authorized admin that blocks the cycle sees, once the store pushes the result back, its
    cache blocked with the dates it had before.
  */
  lemma BlockRoundTrip(w: World)
    requires Gated(w.client) && Authorized(w.client.flags)
    ensures var after := Run(w, [SetAppStateCall(BlockCycle, None, true), Push]);
      after.client.cache == w.client.cache.(state := Blocked) && after.doc == after.client.cache
  {
    var e := [SetAppStateCall(BlockCycle, None, true), Push];
    assert e[1..] == [Push];
    assert e[1..][1..] == [];
    StepKeepsGated(w, e[0]);
    var w1 := Step(w, e[0]);
    assert w1.doc == w.client.cache.(state := Blocked) && w1.client == w.client;
    StepKeepsGated(w1, e[1]);
    assert Run(w, e) == Run(w1, [Push]) == Step(w1, Push);
  }

  /** After log-out and sign-out the client has no listener open and is fully signed out. */
  lemma LogOutClosesListener(w: World)
    requires Gated(w.client)
    ensures var after := Run(w, [Auth(LogOutSucceeded), Auth(IdentityNone)]);
      after.client.flags == SignedOut && !after.client.listening && after.client.live == 0
  {
    var e := [Auth(LogOutSucceeded), Auth(IdentityNone)];
    assert e[1..] == [Auth(IdentityNone)];
    assert e[1..][1..] == [];
    StepKeepsGated(w, e[0]);
    StepKeepsGated(Step(w, e[0]), e[1]);
  }
}
