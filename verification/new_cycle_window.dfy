/**
  The new-cycle form: the two validation tests on its pair of dates, and the confirmation
  popup that hands the captured week to `handleSetAppState('newCycle', ...)`.
*/
module NewCycleWindow {
  import opened Wrappers
  import opened CycleState

  const DayMilliseconds := 1000 * 60 * 60 * 24

  /**
    A day number as milliseconds, every day exactly 86 400 000 ms long. The local-midnight
    parse of the date schema and daylight saving are not part of this model.
  */
  function Millis(day: int): int {
    day * DayMilliseconds
  }

  /**
    The `is-bigger` test: compares only when both dates are present; otherwise it returns null,
    which the validator counts as a failed test.
  */
  function IsBigger(date1: DateField, date2: DateField): (r: Option<bool>)
    ensures r.Some? <==> date1.Day? && date2.Day?
    ensures r == Some(true) <==> date1.Day? && date2.Day? && date2.n > date1.n
  {
    if date2.Day? && date1.Day? then Some(Millis(date2.n) > Millis(date1.n)) else None
  }

  /** The `is-7days` test: the span in days, first and last day included, is 7. */
  function IsSevenDays(date1: DateField, date2: DateField): (r: Option<bool>)
    ensures r.Some? <==> date1.Day? && date2.Day?
  {
    if date2.Day? && date1.Day? then
      var numberOfDays := (Millis(date2.n) - Millis(date1.n)) as real / DayMilliseconds as real + 1.0;
      Some(numberOfDays == 7.0)
    else None
  }

  /** The division of the span by a day's length is exact: the test is an integer condition. */
  lemma SevenDaysIsSixDaysApart(date1: DateField, date2: DateField)
    ensures IsSevenDays(date1, date2) == Some(true) <==> IsWeekSpan(date1, date2)
  {
    if date2.Day? && date1.Day? {
      var diff := (date2.n - date1.n) as real;
      assert (Millis(date2.n) - Millis(date1.n)) as real == diff * DayMilliseconds as real;
      assert (Millis(date2.n) - Millis(date1.n)) as real / DayMilliseconds as real == diff;
    }
  }

  /** Every pair `is-7days` accepts, `is-bigger` accepts too. */
  lemma SevenDaysImpliesBigger(date1: DateField, date2: DateField)
    requires IsSevenDays(date1, date2) == Some(true)
    ensures IsBigger(date1, date2) == Some(true)
  {
    SevenDaysIsSixDaysApart(date1, date2);
  }

  /** The messages the schema can raise. */
  datatype Check = Date1Required | Date2Required | NotBigger | NotSevenDays

  /** The failed checks of the schema on a pair of dates; each date is required on its own. */
  function Errors(date1: DateField, date2: DateField): (r: set<Check>)
    ensures Date1Required in r <==> date1.Blank?
    ensures Date2Required in r <==> date2.Blank?
    ensures NotBigger in r <==> !(date1.Day? && date2.Day? && date2.n > date1.n)
    ensures NotSevenDays in r <==> !IsWeekSpan(date1, date2)
  {
    SevenDaysIsSixDaysApart(date1, date2);
    (if date1.Blank? then {Date1Required} else {})
    + (if date2.Blank? then {Date2Required} else {})
    + (if IsBigger(date1, date2) != Some(true) then {NotBigger} else {})
    + (if IsSevenDays(date1, date2) != Some(true) then {NotSevenDays} else {})
  }

  /** The form is submitted only when the schema raises nothing. */
  predicate Accepts(week: Week) {
    Errors(week.date1, week.date2) == {}
  }

  /** The schema accepts exactly the weeks whose dates are present and six days apart. */
  lemma AcceptsIffWeekSpan(week: Week)
    ensures Accepts(week) <==> IsWeekSpan(week.date1, week.date2)
  {
    SevenDaysIsSixDaysApart(week.date1, week.date2);
    if IsWeekSpan(week.date1, week.date2) {
      assert Errors(week.date1, week.date2) == {};
    } else {
      if week.date1.Day? && week.date2.Day? && week.date2.n > week.date1.n {
        assert NotSevenDays in Errors(week.date1, week.date2);
      } else {
        assert NotBigger in Errors(week.date1, week.date2);
      }
    }
  }

  /** The window: whether the confirmation popup shows, and the values captured at submit. */
  datatype Window = Window(visible: bool, captured: Week)

  const Closed := Window(false, Week(Blank, Blank))

  datatype UiEvent = FormSubmit(values: Week) | Confirm | Cancel

  /** A call the window makes to `handleSetAppState`. */
  datatype Call = Call(switcher: string, week: Week)

  /**
    One interaction. A submit reaches the window only when the schema accepts the values; it
    toggles the popup and captures them. Confirm toggles the popup and starts a new cycle with
    the captured values; Cancel only toggles it. Confirm and Cancel are buttons of the popup, so
    they do nothing while it is hidden.
  */
  function Step(w: Window, e: UiEvent): (r: (Window, Option<Call>))
    ensures e.FormSubmit? && Accepts(e.values) ==> r == (Window(!w.visible, e.values), None)
    ensures e.Confirm? && w.visible ==> r == (Window(false, w.captured), Some(Call(NewCycle, w.captured)))
    ensures r.1.Some? ==> e.Confirm? && w.visible
    ensures r.0.captured != w.captured ==> e.FormSubmit? && r.0.captured == e.values
    ensures e.FormSubmit? && !Accepts(e.values) ==> r == (w, None)
    ensures e.Cancel? && w.visible ==> r == (w.(visible := false), None)
    ensures !w.visible && !e.FormSubmit? ==> r == (w, None)
  {
    match e
    case FormSubmit(values) =>
      if Accepts(values) then (Window(!w.visible, values), None) else (w, None)
    case Confirm =>
      if w.visible then (Window(!w.visible, w.captured), Some(Call(NewCycle, w.captured))) else (w, None)
    case Cancel =>
      if w.visible then (Window(!w.visible, w.captured), None) else (w, None)
  }

  /** The windows reachable from `Closed`: an open popup always holds accepted values. */
  predicate Consistent(w: Window) {
    w.visible ==> Accepts(w.captured)
  }

  /**
    Every step keeps the window consistent, and every call it makes starts a new cycle whose
    week spans exactly seven days.
  */
  lemma StepKeepsConsistent(w: Window, e: UiEvent)
    requires Consistent(w)
    ensures Consistent(Step(w, e).0)
    ensures Step(w, e).1.Some? ==>
      Step(w, e).1.value.switcher == NewCycle && IsWeekSpan(Step(w, e).1.value.week.date1, Step(w, e).1.value.week.date2)
  {
    if Step(w, e).1.Some? {
      AcceptsIffWeekSpan(w.captured);
    }
  }

  /** Submitting accepted values and then confirming starts a new cycle with exactly those values. */
  lemma SubmitThenConfirm(values: Week)
    requires Accepts(values)
    ensures var (w1, c1) := Step(Closed, FormSubmit(values));
      c1.None? && Step(w1, Confirm) == (Closed.(captured := values), Some(Call(NewCycle, values)))
  {
  }

  /**
    The record a confirmed call writes is active with the submitted dates and is well formed,
    whatever the client had cached.
  */
  lemma ConfirmedCallWritesWellFormed(w: Window, cache: CycleRecord)
    requires Consistent(w) && w.visible
    ensures var call := Step(w, Confirm).1.value;
      var written := Transition(call.switcher, Some(call.week), cache);
      written == Success(Some(CycleRecord(Active, w.captured.date1, w.captured.date2)))
      && WellFormed(written.value.value)
  {
    AcceptsIffWeekSpan(w.captured);
  }

  /** The calls the window makes along a sequence of interactions, oldest first. */
  function Calls(w: Window, events: seq<UiEvent>): seq<Call>
    decreases |events|
  {
    if events == [] then []
    else
      var (w1, c) := Step(w, events[0]);
      (if c.Some? then [c.value] else []) + Calls(w1, events[1..])
  }

  /**
    Whatever the user clicks, starting from a consistent window every call the window makes
    starts a new cycle with a week of exactly seven days.
  */
  lemma {:induction false} AllCallsAreWeekSpans(w: Window, events: seq<UiEvent>)
    requires Consistent(w)
    ensures forall i :: 0 <= i < |Calls(w, events)| ==>
      Calls(w, events)[i].switcher == NewCycle && IsWeekSpan(Calls(w, events)[i].week.date1, Calls(w, events)[i].week.date2)
    decreases |events|
  {
    if events != [] {
      StepKeepsConsistent(w, events[0]);
      AllCallsAreWeekSpans(Step(w, events[0]).0, events[1..]);
    }
  }
}
