/**
  Role classification and the session flags `(currentUser, authAdmin, authUser)` of the auth
  provider, driven by identity changes, role lookups and successful log-outs.
*/
module Session {
  import opened Wrappers

  type Uid = string

  datatype Role = Admin | User

  const AdminRole := "admin"
  const UserRole := "user"

  /**
    The role field of `users/<uid>`. None stands for every way the lookup can miss: a failed read,
    an absent document, or a document without a role field.
  */
  type RoleField = Option<string>

  /** None is the failure path, which alerts and logs out; no role is ever defaulted. */
  function ClassifyRole(field: RoleField): (r: Option<Role>)
    ensures r == Some(Admin) <==> field == Some(AdminRole)
    ensures r == Some(User) <==> field == Some(UserRole)
    ensures r.None? <==> field != Some(AdminRole) && field != Some(UserRole)
  {
    match field
    case Some(s) =>
      if s == AdminRole then Some(Admin)
      else if s == UserRole then Some(User)
      else None
    case None => None
  }

  datatype Flags = Flags(currentUser: Option<Uid>, authAdmin: bool, authUser: bool)

  const SignedOut := Flags(None, false, false)

  datatype AuthEvent =
    | IdentitySeen(uid: Uid)
    | IdentityNone
    | RoleResolved(field: RoleField)
    | LogOutSucceeded

  /** The flags after an event, and whether handling it called `logOut`. */
  datatype Reaction = Reaction(flags: Flags, logOut: bool)

  function Step(f: Flags, e: AuthEvent): (r: Reaction)
    // an identity change touches only the current user and never the role flags
    ensures e.IdentitySeen? ==> r == Reaction(f.(currentUser := Some(e.uid)), false)
    ensures e.IdentityNone? ==> r == Reaction(f.(currentUser := None), false)
    // 'admin' raises only authAdmin, 'user' raises only authUser, anything else raises neither
    ensures e.RoleResolved? ==> r.flags.currentUser == f.currentUser
    ensures e.RoleResolved? ==> (r.flags.authAdmin <==> f.authAdmin || e.field == Some(AdminRole))
    ensures e.RoleResolved? ==> (r.flags.authUser <==> f.authUser || e.field == Some(UserRole))
    ensures e.RoleResolved? ==> (r.logOut <==> ClassifyRole(e.field).None?)
    ensures e.LogOutSucceeded? ==> r == Reaction(f.(authAdmin := false, authUser := false), false)
  {
    match e
    case IdentitySeen(uid) => Reaction(f.(currentUser := Some(uid)), false)
    case IdentityNone => Reaction(f.(currentUser := None), false)
    case RoleResolved(field) =>
      (match ClassifyRole(field)
       case Some(Admin) => Reaction(f.(authAdmin := true), false)
       case Some(User) => Reaction(f.(authUser := true), false)
       case None => Reaction(f, true))
    case LogOutSucceeded => Reaction(f.(authAdmin := false, authUser := false), false)
  }

  /** The flags after a whole sequence of auth events, starting from `f`. */
  function Run(f: Flags, events: seq<AuthEvent>): Flags
    decreases |events|
  {
    if events == [] then f else Run(Step(f, events[0]).flags, events[1..])
  }

  /** The gate on the cycle-state snapshot listener. */
  predicate Authorized(f: Flags) {
    f.authAdmin || f.authUser
  }

  /**
    A role flag is only ever raised by a role lookup that returned that exact string, and a
    successful log-out lowers both: after the last log-out, authAdmin holds iff some later lookup
    said 'admin'.
  */
  /** The string a lookup returns for a role. */
  function RoleName(role: Role): string {
    match role
    case Admin => AdminRole
    case User => UserRole
  }

  /** The flag a role raises. */
  function RoleFlag(f: Flags, role: Role): bool {
    match role
    case Admin => f.authAdmin
    case User => f.authUser
  }

  /**
    A role flag is only ever raised by a role lookup that returned that exact string, and a
    successful log-out lowers both: after the last log-out, a role's flag holds iff some later
    lookup named that role.
  */
  lemma {:induction false} FlagTracksLookups(role: Role, events: seq<AuthEvent>)
    ensures RoleFlag(Run(SignedOut, events), role) <==>
      exists i :: 0 <= i < |events| && events[i] == RoleResolved(Some(RoleName(role))) && NoLogOutAfter(events, i)
    decreases |events|
  {
    if events != [] {
      var n := |events| - 1;
      var hit := RoleResolved(Some(RoleName(role)));
      RunSnoc(SignedOut, events[..n], events[n]);
      assert events[..n] + [events[n]] == events;
      FlagTracksLookups(role, events[..n]);
      var prefix := events[..n];
      if RoleFlag(Run(SignedOut, events), role) {
        if events[n] == hit {
          assert NoLogOutAfter(events, n);
        } else {
          var i :| 0 <= i < n && prefix[i] == hit && NoLogOutAfter(prefix, i);
          assert events[i] == prefix[i];
          assert NoLogOutAfter(events, i);
        }
      }
      if exists i :: 0 <= i < |events| && events[i] == hit && NoLogOutAfter(events, i) {
        var i :| 0 <= i < |events| && events[i] == hit && NoLogOutAfter(events, i);
        assert events[n] != LogOutSucceeded;
        if i < n {
          assert prefix[i] == events[i];
          assert NoLogOutAfter(prefix, i);
        }
      }
    }
  }

  /** `authAdmin` holds iff some lookup said 'admin' after the last log-out. */
  lemma AdminFlagTracksLookups(events: seq<AuthEvent>)
    ensures Run(SignedOut, events).authAdmin <==>
      exists i :: 0 <= i < |events| && events[i] == RoleResolved(Some(AdminRole)) && NoLogOutAfter(events, i)
  {
    FlagTracksLookups(Admin, events);
  }

  /** `authUser` holds iff some lookup said 'user' after the last log-out. */
  lemma UserFlagTracksLookups(events: seq<AuthEvent>)
    ensures Run(SignedOut, events).authUser <==>
      exists i :: 0 <= i < |events| && events[i] == RoleResolved(Some(UserRole)) && NoLogOutAfter(events, i)
  {
    FlagTracksLookups(User, events);
  }

  /** No successful log-out occurs after position i. */
  predicate NoLogOutAfter(events: seq<AuthEvent>, i: int)
    requires 0 <= i < |events|
  {
    forall j :: i < j < |events| ==> events[j] != LogOutSucceeded
  }

  /** Running a sequence extended by one event is one more step. */
  lemma {:induction false} RunSnoc(f: Flags, events: seq<AuthEvent>, e: AuthEvent)
    ensures Run(f, events + [e]) == Step(Run(f, events), e).flags
    decreases |events|
  {
    if events == [] {
      assert [e][1..] == [];
    } else {
      assert (events + [e])[1..] == events[1..] + [e];
      RunSnoc(Step(f, events[0]).flags, events[1..], e);
    }
  }

  /** However the session got there, a successful log-out followed by the identity going away signs it out completely. */
  lemma LogOutThenNoneSignsOut(f: Flags)
    ensures Run(f, [LogOutSucceeded, IdentityNone]) == SignedOut
  {
    assert [LogOutSucceeded, IdentityNone][1..] == [IdentityNone];
    assert [IdentityNone][1..] == [];
  }
}
