/**
  The shared cycle record (`statesApp/cycleState`) and the three named switchers of
  `handleSetAppState` that overwrite it. A switcher builds the full replacement record from the
  optional week and the client's cached copy; it never touches that cached copy, which changes
  only when the store pushes a snapshot.
*/
module CycleState {
  import opened Wrappers

  datatype Lifecycle = NonActive | Active | Blocked

  /** A date as it is held in the record and in the form: blank (the empty string) or a day number. */
  datatype DateField = Blank | Day(n: int)

  datatype CycleRecord = CycleRecord(state: Lifecycle, date1: DateField, date2: DateField)

  /** The `week` argument: the two dates captured by the new-cycle form. */
  datatype Week = Week(date1: DateField, date2: DateField)

  /** The cache before the first snapshot arrives. */
  const Initial := CycleRecord(NonActive, Blank, Blank)

  const NewCycle := "newCycle"
  const BlockCycle := "blockCycle"
  const EndCycle := "endCycle"

  predicate IsSwitcher(switcher: string) {
    switcher == NewCycle || switcher == BlockCycle || switcher == EndCycle
  }

  /**
    Why a switcher call rejects: `newCycle` without a week fails while reading `week.date1`,
    before any write; a write the store refuses rejects with the store's error.
  */
  datatype Fault = MissingWeek | WriteRefused

  /**
    The record a switcher writes: Success(None) when the switcher is not one of the three names
    (no write at all), Success(Some(rec)) for the full overwrite, Failure when it cannot be built.
  */
  function Transition(switcher: string, week: Option<Week>, cache: CycleRecord): (r: Result<Option<CycleRecord>, Fault>)
    ensures r.Failure? <==> switcher == NewCycle && week.None?
    ensures r.Success? && r.value.None? <==> !IsSwitcher(switcher)
    ensures switcher == NewCycle && week.Some? ==>
      r.Success? && r.value.Some? && r.value.value.state == Active &&
      r.value.value.date1 == week.value.date1 && r.value.value.date2 == week.value.date2
    ensures switcher == BlockCycle ==> r == Success(Some(cache.(state := Blocked)))
    ensures switcher == EndCycle ==> r == Success(Some(cache.(state := NonActive)))
  {
    if switcher == NewCycle then
      match week
      case None => Failure(MissingWeek)
      case Some(w) => Success(Some(CycleRecord(Active, w.date1, w.date2)))
    else if switcher == BlockCycle then
      Success(Some(CycleRecord(Blocked, cache.date1, cache.date2)))
    else if switcher == EndCycle then
      Success(Some(CycleRecord(NonActive, cache.date1, cache.date2)))
    else
      Success(None)
  }

  /** What one `handleSetAppState` call leaves in the shared document, and whether it rejected. */
  datatype Written = Written(doc: CycleRecord, rejected: Option<Fault>)

  /**
    One `handleSetAppState` call against the shared document `doc`; `stored` says whether the
    store accepted the write. The document changes only by a full overwrite with the switcher's
    record, and only when that write is accepted.
  */
  function SetAppState(switcher: string, week: Option<Week>, cache: CycleRecord, doc: CycleRecord, stored: bool): (r: Written)
    ensures !IsSwitcher(switcher) ==> r == Written(doc, None)
    ensures r.doc != doc ==> stored && Transition(switcher, week, cache) == Success(Some(r.doc))
    ensures r.rejected.None? <==> (Transition(switcher, week, cache).Success? && (stored || !IsSwitcher(switcher)))
    ensures r.rejected.None? && IsSwitcher(switcher) ==> Transition(switcher, week, cache) == Success(Some(r.doc))
  {
    match Transition(switcher, week, cache)
    case Failure(f) => Written(doc, Some(f))
    case Success(None) => Written(doc, None)
    case Success(Some(rec)) => if stored then Written(rec, None) else Written(doc, Some(WriteRefused))
  }

  /** The snapshot listener: the cache becomes a copy of the pushed record, whatever it was. */
  function OnPush(cache: CycleRecord, pushed: CycleRecord): (r: CycleRecord)
    ensures r.state == pushed.state && r.date1 == pushed.date1 && r.date2 == pushed.date2
  {
    CycleRecord(pushed.state, pushed.date1, pushed.date2)
  }

  /** Two dates a week apart, first day and last day included. */
  predicate IsWeekSpan(date1: DateField, date2: DateField) {
    date1.Day? && date2.Day? && date2.n - date1.n == 6
  }

  /** The shape the record is meant to keep: an active cycle spans exactly one week. */
  predicate WellFormed(rec: CycleRecord) {
    rec.state == Active ==> IsWeekSpan(rec.date1, rec.date2)
  }

  lemma InitialWellFormed()
    ensures WellFormed(Initial)
  {
  }

  /** `newCycle` ignores the cached record entirely. */
  lemma NewCycleIgnoresCache(week: Week, cache1: CycleRecord, cache2: CycleRecord)
    ensures Transition(NewCycle, Some(week), cache1) == Transition(NewCycle, Some(week), cache2)
  {
  }

  /** `blockCycle` and `endCycle` never read the week argument. */
  lemma BlockAndEndIgnoreWeek(switcher: string, week1: Option<Week>, week2: Option<Week>, cache: CycleRecord)
    requires switcher == BlockCycle || switcher == EndCycle
    ensures Transition(switcher, week1, cache) == Transition(switcher, week2, cache)
  {
  }

  /**
    Every write keeps the record well formed, provided a new cycle is started only with a week
    that spans seven days and the cache it builds on is well formed.
  */
  lemma TransitionKeepsWellFormed(switcher: string, week: Option<Week>, cache: CycleRecord)
    requires WellFormed(cache)
    requires switcher == NewCycle && week.Some? ==> IsWeekSpan(week.value.date1, week.value.date2)
    ensures Transition(switcher, week, cache).Success? && Transition(switcher, week, cache).value.Some? ==>
      WellFormed(Transition(switcher, week, cache).value.value)
  {
  }

  /** Blocking or ending twice in a row writes the same record as doing it once. */
  lemma BlockAndEndIdempotent(switcher: string, cache: CycleRecord)
    requires switcher == BlockCycle || switcher == EndCycle
    ensures Transition(switcher, None, cache).Success? && Transition(switcher, None, cache).value.Some?
    ensures var once := Transition(switcher, None, cache).value.value;
      Transition(switcher, None, OnPush(cache, once)) == Success(Some(once))
  {
  }

  /** Ending a blocked cycle keeps the dates the cycle was started with. */
  lemma BlockThenEndKeepsDates(week: Week, cache: CycleRecord)
    ensures var started := Transition(NewCycle, Some(week), cache).value.value;
      var blocked := Transition(BlockCycle, None, started).value.value;
      var ended := Transition(EndCycle, None, blocked).value.value;
      ended == CycleRecord(NonActive, week.date1, week.date2)
  {
  }
}
