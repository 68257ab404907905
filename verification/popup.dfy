/**
  The availability popup as a state machine: its four pieces of state, the
  user events that change them, with the population effect run after every
  change of the selection, and the guarantees that hold at submit time.
 */
module CalendarPopup {
  import opened CalendarTypes
  import opened Population
  import opened SlotEdits
  import opened Selection
  import opened Submission

  /** The component's state; the loading flag only drives rendering and is left out. */
  datatype State = State(selected: Option<seq<Date>>, timeSlots: map<DayKey, Times>, applyToAll: bool, globalTime: Times)

  /** The state at mount: nothing selected, an empty map, the toggle off, 09:00 to 17:00 globally. */
  const Initial: State := State(Some([]), map[], false, DefaultTimes)

  /**
    What the user can do in the popup; `Render` is the in-place sort the day
    list performs. A per-day edit comes from a row of the day list, and a
    global edit from the inputs shown under the toggle; `Step` ignores either
    when the popup does not show the input it comes from.
   */
  datatype Event =
    | Select(dates: Option<seq<Date>>)
    | Remove(date: Date)
    | EditTime(date: Date, field: Field, value: string)
    | ToggleAll(on: bool)
    | EditGlobal(field: Field, value: string)
    | Render

  /** The population invariant: every selected day has an entry in the time map. */
  ghost predicate Ready(key: KeyFn, s: State)
  {
    s.selected.Some? ==> Covered(s.selected.value, key, s.timeSlots)
  }

  /**
    Every range in the state has both fields: the map's entries and the
    global range. A stamp is then never built from an undefined field.
   */
  ghost predicate Defined(s: State)
  {
    && s.globalTime.start.Some? && s.globalTime.end.Some?
    && forall k :: k in s.timeSlots ==> s.timeSlots[k].start.Some? && s.timeSlots[k].end.Some?
  }

  /** The inputs of a row of the day list exist: the date is listed and the toggle is off. */
  predicate RowShown(s: State, d: Date)
  {
    !s.applyToAll && s.selected.Some? && d in s.selected.value
  }

  /** A selection whose dates all occur in a covered selection is covered too. */
  lemma CoveredByMembership(sub: seq<Date>, sel: seq<Date>, key: KeyFn, slots: map<DayKey, Times>)
    requires forall d :: d in sub ==> d in sel
    ensures Covered(sel, key, slots) ==> Covered(sub, key, slots)
  {
    if Covered(sel, key, slots) {
      forall i | 0 <= i < |sub| ensures key(sub[i]) in slots {
        assert sub[i] in sel;
      }
    }
  }

  /** Covering a selection only depends on the keys of the map, and more keys cover more. */
  lemma CoveredByLargerMap(sel: seq<Date>, key: KeyFn, m: map<DayKey, Times>, m': map<DayKey, Times>)
    requires m.Keys <= m'.Keys
    ensures Covered(sel, key, m) ==> Covered(sel, key, m')
  {
  }

  /** After a removal from a ready state the effect finds every entry present and adds none. */
  lemma RemovalNeedsNoEntries(key: KeyFn, s: State, x: Date)
    ensures Ready(key, s) ==> PopulateEffect(RemoveDate(s.selected, x), key, s.timeSlots) == s.timeSlots
  {
    if Ready(key, s) && s.selected.Some? {
      var remaining := RemoveDate(s.selected, x).value;
      CoveredByMembership(remaining, s.selected.value, key, s.timeSlots);
      PopulateCoveredIsIdentity(remaining, key, s.timeSlots);
    }
  }

  /**
    One event. A new selection from the calendar, and the filtered copy a
    removal installs, are followed by the population effect; the render sort
    reorders a non-empty selection in place, which is the same array, so the
    effect does not run again.
   */
  function Step(key: KeyFn, s: State, e: Event): (r: State)
    ensures s.timeSlots.Keys <= r.timeSlots.Keys
    ensures Ready(key, s) ==> Ready(key, r)
    ensures e.Select? ==> Ready(key, r) && Extends(s.timeSlots, r.timeSlots)
    ensures (e.ToggleAll? || e.EditGlobal? || e.Render?) ==> r.timeSlots == s.timeSlots
    ensures e.Remove? && Ready(key, s) ==> r.timeSlots == s.timeSlots
    ensures (e.EditTime? || e.ToggleAll? || e.EditGlobal?) ==> r.selected == s.selected
    ensures e.EditTime? && !RowShown(s, e.date) ==> r == s
    ensures e.EditGlobal? && !s.applyToAll ==> r == s
    ensures Ready(key, s) && Defined(s) ==> Defined(r)
  {
    match e
    case Select(dates) =>
      PopulateKeepsDefined(key, s, dates);
      s.(selected := dates, timeSlots := PopulateEffect(dates, key, s.timeSlots))
    case Remove(x) =>
      var remaining := RemoveDate(s.selected, x);
      RemovalNeedsNoEntries(key, s, x);
      PopulateKeepsDefined(key, s, remaining);
      s.(selected := remaining, timeSlots := PopulateEffect(remaining, key, s.timeSlots))
    case EditTime(d, field, value) =>
      if RowShown(s, d) then
        var r := s.(timeSlots := HandleTimeChange(s.timeSlots, key, d, field, value));
        CoveredByLargerMap(s.selected.value, key, s.timeSlots, r.timeSlots);
        EditKeepsDefined(key, s, d, field, value);
        r
      else
        s
    case ToggleAll(on) =>
      s.(applyToAll := on)
    case EditGlobal(field, value) =>
      if s.applyToAll then s.(globalTime := SlotEdits.EditGlobal(s.globalTime, field, value)) else s
    case Render =>
      if s.selected.Some? && |s.selected.value| > 0 then
        var sorted := SortByTime(s.selected.value);
        SortedSameDates(s.selected.value);
        CoveredByMembership(sorted, s.selected.value, key, s.timeSlots);
        s.(selected := Some(sorted))
      else
        s
  }

  /** The population effect adds only default ranges, which have both fields. */
  lemma PopulateKeepsDefined(key: KeyFn, s: State, dates: Option<seq<Date>>)
    ensures Defined(s) ==> Defined(s.(selected := dates, timeSlots := PopulateEffect(dates, key, s.timeSlots)))
  {
    if Defined(s) {
      var m := PopulateEffect(dates, key, s.timeSlots);
      forall k | k in m ensures m[k].start.Some? && m[k].end.Some? {
        if k in s.timeSlots {
          assert m[k] == s.timeSlots[k];
        }
      }
    }
  }

  /** Editing one field of a listed day keeps the other field of its entry. */
  lemma EditKeepsDefined(key: KeyFn, s: State, d: Date, field: Field, value: string)
    requires RowShown(s, d)
    ensures Ready(key, s) && Defined(s) ==> Defined(s.(timeSlots := HandleTimeChange(s.timeSlots, key, d, field, value)))
  {
    if Ready(key, s) && Defined(s) {
      var i :| 0 <= i < |s.selected.value| && s.selected.value[i] == d;
      assert key(d) in s.timeSlots;
      var m := HandleTimeChange(s.timeSlots, key, d, field, value);
      assert FieldOf(m[key(d)], field).Some? && FieldOf(m[key(d)], Other(field)).Some?;
      assert m[key(d)].start.Some? && m[key(d)].end.Some? by {
        match field
        case Start =>
        case End =>
      }
    }
  }

  /** Sorting keeps exactly the dates it was given. */
  lemma SortedSameDates(dates: seq<Date>)
    ensures forall d :: d in SortByTime(dates) <==> d in dates
  {
    var sorted := SortByTime(dates);
    forall d ensures d in sorted <==> d in dates {
      assert d in sorted <==> d in multiset(sorted);
    }
  }

  /** Events applied one after another. */
  function Run(key: KeyFn, s: State, events: seq<Event>): State
    decreases |events|
  {
    if |events| == 0 then s else Run(key, Step(key, s, events[0]), events[1..])
  }

  /** Every state reached from a ready state is ready. */
  lemma {:induction false} RunKeepsReady(key: KeyFn, s: State, events: seq<Event>)
    requires Ready(key, s)
    ensures Ready(key, Run(key, s, events))
    decreases |events|
  {
    if |events| > 0 {
      RunKeepsReady(key, Step(key, s, events[0]), events[1..]);
    }
  }

  /** Every state reached from a ready state whose ranges all have both fields keeps both properties. */
  lemma {:induction false} RunKeepsDefined(key: KeyFn, s: State, events: seq<Event>)
    requires Ready(key, s) && Defined(s)
    ensures Ready(key, Run(key, s, events)) && Defined(Run(key, s, events))
    decreases |events|
  {
    if |events| > 0 {
      RunKeepsDefined(key, Step(key, s, events[0]), events[1..]);
    }
  }

  /** The submit handler, applied to a state. */
  function Submit(key: KeyFn, s: State, username: string, groupName: string, password: string): SubmitOutcome
  {
    HandleSubmit(s.selected, key, s.timeSlots, s.applyToAll, s.globalTime, username, groupName, password)
  }

  /**
    The safety of the unguarded lookup: from the mounted state, whatever the
    user does, submitting either stops at the empty-selection guard or sends
    a request; the per-day lookup never meets a missing entry.
   */
  lemma SubmitNeverMissesEntry(key: KeyFn, events: seq<Event>, username: string, groupName: string, password: string)
    ensures !Submit(key, Run(key, Initial, events), username, groupName, password).LookupFailed?
    ensures var s := Run(key, Initial, events);
            Submit(key, s, username, groupName, password).Send? <==> s.selected.Some? && |s.selected.value| > 0
  {
    RunKeepsReady(key, Initial, events);
  }

  /**
    Whatever the user does from the mounted state, every submitted slot is
    stamped with two defined times of the range chosen for its date, so no
    stamp spells out an undefined field.
   */
  lemma SubmittedTimesDefined(key: KeyFn, events: seq<Event>, username: string, groupName: string, password: string)
    ensures var s := Run(key, Initial, events);
            var out := Submit(key, s, username, groupName, password);
            out.Send? ==>
              forall i :: 0 <= i < |out.payload.slots| ==>
                var d := s.selected.value[i];
                var t := ChosenTimes(d, key, s.timeSlots, s.applyToAll, s.globalTime);
                && t.Some? && t.value.start.Some? && t.value.end.Some?
                && out.payload.slots[i].startTime == key(d) + "T" + t.value.start.value + ":00"
                && out.payload.slots[i].endTime == key(d) + "T" + t.value.end.value + ":00"
  {
    var s := Run(key, Initial, events);
    RunKeepsDefined(key, Initial, events);
    var out := Submit(key, s, username, groupName, password);
    if out.Send? {
      var sel := s.selected.value;
      BuildSlotsPointwise(sel, key, s.timeSlots, s.applyToAll, s.globalTime);
      forall i | 0 <= i < |out.payload.slots|
        ensures var t := ChosenTimes(sel[i], key, s.timeSlots, s.applyToAll, s.globalTime);
                && t.Some? && t.value.start.Some? && t.value.end.Some?
                && out.payload.slots[i].startTime == key(sel[i]) + "T" + t.value.start.value + ":00"
                && out.payload.slots[i].endTime == key(sel[i]) + "T" + t.value.end.value + ":00"
      {
        assert s.applyToAll || key(sel[i]) in s.timeSlots;
      }
    }
  }

  /**
    The range the day list shows for a date: its entry, or 09:00 to 17:00
    when it has none. Only rendering has this fallback.
   */
  function DisplayedTimes(key: KeyFn, slots: map<DayKey, Times>, d: Date): (t: Times)
    ensures key(d) in slots ==> t == slots[key(d)]
    ensures key(d) !in slots ==> t == DefaultTimes
  {
    if key(d) in slots then slots[key(d)] else DefaultTimes
  }

  /**
    In a ready state with the toggle off, every submitted slot carries the
    range the day list displays for its date: the rendering fallback is never
    what the user sees for a selected day.
   */
  lemma SubmittedAsDisplayed(key: KeyFn, s: State, username: string, groupName: string, password: string)
    requires Ready(key, s) && !s.applyToAll
    requires s.selected.Some? && |s.selected.value| > 0
    ensures Submit(key, s, username, groupName, password).Send?
    ensures var slots := Submit(key, s, username, groupName, password).payload.slots;
            var sel := s.selected.value;
            forall i :: 0 <= i < |sel| ==>
              slots[i].startTime == Stamp(key(sel[i]), DisplayedTimes(key, s.timeSlots, sel[i]).start)
              && slots[i].endTime == Stamp(key(sel[i]), DisplayedTimes(key, s.timeSlots, sel[i]).end)
  {
    BuildSlotsPointwise(s.selected.value, key, s.timeSlots, false, s.globalTime);
  }

  /**
    With the toggle on, every submitted slot carries the global range, and
    the per-day map, which the toggle does not touch, plays no part.
   */
  lemma GlobalOverrides(key: KeyFn, s: State, username: string, groupName: string, password: string)
    requires s.applyToAll && s.selected.Some? && |s.selected.value| > 0
    ensures Submit(key, s, username, groupName, password).Send?
    ensures var slots := Submit(key, s, username, groupName, password).payload.slots;
            var sel := s.selected.value;
            forall i :: 0 <= i < |sel| ==>
              slots[i].startTime == Stamp(key(sel[i]), s.globalTime.start)
              && slots[i].endTime == Stamp(key(sel[i]), s.globalTime.end)
    ensures forall m :: Submit(key, s.(timeSlots := m), username, groupName, password)
                     == Submit(key, s, username, groupName, password)
  {
    BuildSlotsPointwise(s.selected.value, key, s.timeSlots, true, s.globalTime);
    forall m ensures Submit(key, s.(timeSlots := m), username, groupName, password)
                  == Submit(key, s, username, groupName, password) {
      GlobalIgnoresMap(s.selected.value, key, m, s.timeSlots, s.globalTime);
    }
  }

  /**
    After the day list has rendered, the selection submitted is ascending by
    timestamp and the slots are those of the unsorted selection, reordered.
   */
  lemma RenderOrdersSubmission(key: KeyFn, s: State, username: string, groupName: string, password: string)
    requires Ready(key, s) && s.selected.Some? && |s.selected.value| > 0
    ensures var r := Step(key, s, Render);
            r.selected.Some? && Ascending(r.selected.value)
            && multiset(r.selected.value) == multiset(s.selected.value)
    ensures Submit(key, s, username, groupName, password).Send?
    ensures Submit(key, Step(key, s, Render), username, groupName, password).Send?
    ensures multiset(Submit(key, Step(key, s, Render), username, groupName, password).payload.slots)
         == multiset(Submit(key, s, username, groupName, password).payload.slots)
  {
    var sel := s.selected.value;
    var sorted := SortByTime(sel);
    var r := Step(key, s, Render);
    assert r == s.(selected := Some(sorted));
    assert |sorted| == |multiset(sorted)| == |sel|;
    BuildSlotsPermutation(sel, sorted, key, s.timeSlots, s.applyToAll, s.globalTime);
    var before := BuildSlots(sel, key, s.timeSlots, s.applyToAll, s.globalTime);
    var after := BuildSlots(sorted, key, s.timeSlots, s.applyToAll, s.globalTime);
    assert Submit(key, s, username, groupName, password) == Send(Payload(username, groupName, password, before.value));
    assert Submit(key, r, username, groupName, password) == Send(Payload(username, groupName, password, after.value));
  }

  /**
    Reselecting never loses an edit: once a day's range is edited, any later
    change of the selection keeps that entry as it was.
   */
  lemma ReselectKeepsEdit(key: KeyFn, s: State, d: Date, field: Field, value: string, dates: Option<seq<Date>>)
    requires RowShown(s, d)
    ensures var edited := Step(key, s, EditTime(d, field, value));
            var r := Step(key, edited, Select(dates));
            key(d) in r.timeSlots && r.timeSlots[key(d)] == edited.timeSlots[key(d)]
            && FieldOf(r.timeSlots[key(d)], field) == Some(value)
  {
  }

  /** A removed day is gone from the selection, so none of the submitted slots comes from it. */
  lemma RemovedDayNotSubmitted(key: KeyFn, s: State, x: Date, username: string, groupName: string, password: string)
    ensures var r := Step(key, s, Remove(x));
            r.selected.Some? ==> forall i :: 0 <= i < |r.selected.value| ==> r.selected.value[i].time != x.time
    ensures var r := Step(key, s, Remove(x));
            var out := Submit(key, r, username, groupName, password);
            out.Send? ==> |out.payload.slots| == |r.selected.value| <= |s.selected.value|
  {
    if s.selected.Some? {
      var r := DropTime(s.selected.value, x.time);
      forall i | 0 <= i < |r| ensures r[i].time != x.time {
        assert r[i] in multiset(r);
      }
    }
  }

  /** A formatter for the two-day example: timestamp 0 is 1 March 2024, any other is 2 March 2024. */
  function ExampleKey(d: Date): DayKey
  {
    if d.time == 0 then "2024-03-01" else "2024-03-02"
  }

  /** The events of the two-day example: select both days, then edit the first one's range. */
  const ExampleEvents: seq<Event> :=
    [Select(Some([Date(0), Date(86400000)])), EditTime(Date(0), Start, "08:00"), EditTime(Date(0), End, "12:00")]

  /** The state the example's events lead to. */
  const ExampleFinal: State :=
    State(Some([Date(0), Date(86400000)]),
          map["2024-03-01" := Times(Some("08:00"), Some("12:00")), "2024-03-02" := DefaultTimes],
          false, DefaultTimes)

  /** Selecting the two days gives each the default range. */
  lemma ExampleSelect()
    ensures Step(ExampleKey, Initial, ExampleEvents[0])
         == State(Some([Date(0), Date(86400000)]),
                  map["2024-03-01" := DefaultTimes, "2024-03-02" := DefaultTimes], false, DefaultTimes)
  {
    var sel := [Date(0), Date(86400000)];
    assert KeysOf(sel, ExampleKey) == {"2024-03-01", "2024-03-02"} by {
      assert ExampleKey(sel[0]) == "2024-03-01" && ExampleKey(sel[1]) == "2024-03-02";
    }
  }

  /** The two edits of the first day's range. */
  lemma ExampleEdits(s1: State)
    requires s1 == State(Some([Date(0), Date(86400000)]),
                         map["2024-03-01" := DefaultTimes, "2024-03-02" := DefaultTimes], false, DefaultTimes)
    ensures Step(ExampleKey, Step(ExampleKey, s1, ExampleEvents[1]), ExampleEvents[2]) == ExampleFinal
  {
    var s2 := Step(ExampleKey, s1, ExampleEvents[1]);
    assert ExampleKey(Date(0)) == "2024-03-01";
    assert s2.timeSlots == map["2024-03-01" := Times(Some("08:00"), Some("17:00")), "2024-03-02" := DefaultTimes];
  }

  /** The events of the example lead to `ExampleFinal`. */
  lemma ExampleState()
    ensures Run(ExampleKey, Initial, ExampleEvents) == ExampleFinal
  {
    ExampleSelect();
    var s1 := Step(ExampleKey, Initial, ExampleEvents[0]);
    var s2 := Step(ExampleKey, s1, ExampleEvents[1]);
    var s3 := Step(ExampleKey, s2, ExampleEvents[2]);
    ExampleEdits(s1);
    assert Run(ExampleKey, s3, ExampleEvents[3..]) == s3;
    assert Run(ExampleKey, s2, ExampleEvents[2..]) == s3;
    assert Run(ExampleKey, s1, ExampleEvents[1..]) == s3;
  }

  /**
    Two days, the first edited to 08:00 to 12:00, the second left at its
    default, submitted with the toggle off.
   */
  lemma TwoDayExample()
    ensures Submit(ExampleKey, ExampleFinal, "ana", "team", "pw")
            == Send(Payload("ana", "team", "pw",
                            [Slot("2024-03-01T08:00:00", "2024-03-01T12:00:00"),
                             Slot("2024-03-02T09:00:00", "2024-03-02T17:00:00")]))
  {
    var sel := [Date(0), Date(86400000)];
    var m := ExampleFinal.timeSlots;
    assert ExampleKey(sel[0]) == "2024-03-01" && ExampleKey(sel[1]) == "2024-03-02";
    assert Covered(sel, ExampleKey, m);
    BuildSlotsPointwise(sel, ExampleKey, m, false, DefaultTimes);
    ExampleStamps();
  }

  /** The four timestamps of the two-day example, spelled out. */
  lemma ExampleStamps()
    ensures Stamp("2024-03-01", Some("08:00")) == "2024-03-01T08:00:00"
    ensures Stamp("2024-03-01", Some("12:00")) == "2024-03-01T12:00:00"
    ensures Stamp("2024-03-02", Some("09:00")) == "2024-03-02T09:00:00"
    ensures Stamp("2024-03-02", Some("17:00")) == "2024-03-02T17:00:00"
  {
  }
}
