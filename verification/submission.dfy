/**
  Submitting the popup: the empty-selection guard, the transformation of
  the selection into `{start_time, end_time}` pairs and the request payload.
 */
module Submission {
  import opened CalendarTypes
  import opened SlotEdits

  /** One `{start_time, end_time}` pair of the request. */
  datatype Slot = Slot(startTime: string, endTime: string)

  /** The JSON body posted to `/availability`. */
  datatype Payload = Payload(userName: string, groupName: string, password: string, slots: seq<Slot>)

  /**
    What pressing "Save & Finish" leads to: nothing sent because no day is
    selected, nothing sent because reading a missing entry threw, or the
    request with its payload.
   */
  datatype SubmitOutcome = NoDates | LookupFailed(missing: DayKey) | Send(payload: Payload)

  /** A possibly undefined field inside a template literal: `undefined` prints as its name. */
  function TextOf(v: Option<string>): string
  {
    match v
    case Some(s) => s
    case None => "undefined"
  }

  /** `${dateStr}T${time}:00`. */
  function Stamp(day: DayKey, time: Option<string>): string
  {
    day + "T" + TextOf(time) + ":00"
  }

  /**
    The layout of a stamp: the day key, a `T`, the time text (`undefined`
    for a missing field) and a closing `:00`.
   */
  lemma StampLayout(day: DayKey, time: Option<string>)
    ensures var r := Stamp(day, time);
            && |r| == |day| + |TextOf(time)| + 4
            && r[..|day|] == day && r[|day|] == 'T'
            && r[|day| + 1..|r| - 3] == TextOf(time) && r[|r| - 3..] == ":00"
    ensures time.None? ==> Stamp(day, time) == day + "Tundefined:00"
  {
    var r := Stamp(day, time);
    assert r[..|day|] == day;
    assert r[|day| + 1..|r| - 3] == TextOf(time);
  }

  /**
    Reads a stamp back, given the length of its day part: the day key and
    the time text between the `T` and the trailing `:00`.
   */
  function SplitStamp(s: string, dayLength: nat): (r: Option<(DayKey, string)>)
    ensures r.Some? ==> s == r.value.0 + "T" + r.value.1 + ":00"
  {
    if |s| >= dayLength + 4 && s[dayLength] == 'T' && s[|s| - 3..] == ":00" then
      var day, time := s[..dayLength], s[dayLength + 1..|s| - 3];
      assert s == day + "T" + time + ":00";
      Some((day, time))
    else
      None
  }

  /** The stamp keeps both its parts: the day key and the time text can be read back. */
  lemma StampRoundTrip(day: DayKey, time: Option<string>)
    ensures SplitStamp(Stamp(day, time), |day|) == Some((day, TextOf(time)))
  {
    var s := Stamp(day, time);
    assert s[..|day|] == day;
    assert s[|day| + 1..|s| - 3] == TextOf(time);
  }

  /** The pair submitted for one day: both ends stamped with the day key. */
  function SlotFor(day: DayKey, t: Times): Slot
  {
    Slot(Stamp(day, t.start), Stamp(day, t.end))
  }

  /** The range a date is submitted with: the global one when the toggle is on, else its own entry. */
  function ChosenTimes(d: Date, key: KeyFn, slots: map<DayKey, Times>, applyToAll: bool, global: Times): (r: Option<Times>)
    ensures r.Some? <==> applyToAll || key(d) in slots
    ensures applyToAll ==> r == Some(global)
    ensures !applyToAll && key(d) in slots ==> r == Some(slots[key(d)])
  {
    if applyToAll then Some(global) else Lookup(slots, key(d))
  }

  /**
    `selectedDates.map(...)`: one slot per date, in order. Reading `.start`
    of a missing entry throws, which ends the map at the first date whose key
    has no entry; the error carries that key.
   */
  function BuildSlots(sel: seq<Date>, key: KeyFn, slots: map<DayKey, Times>, applyToAll: bool, global: Times): (r: Result<seq<Slot>, DayKey>)
    ensures r.Success? <==> applyToAll || Covered(sel, key, slots)
    ensures r.Success? ==> |r.value| == |sel|
    ensures r.Failure? ==> !applyToAll && r.error !in slots
    decreases |sel|
  {
    if |sel| == 0 then
      Success([])
    else
      var day := key(sel[0]);
      match ChosenTimes(sel[0], key, slots, applyToAll, global)
      case None =>
        Failure(day)
      case Some(t) =>
        match BuildSlots(sel[1..], key, slots, applyToAll, global)
        case Failure(e) =>
          Failure(e)
        case Success(rest) =>
          Success([SlotFor(day, t)] + rest)
  }

  /**
    Each slot belongs to the date at the same position: it carries the day
    key of that date and the global range when the toggle is on, the date's
    own entry otherwise.
   */
  lemma {:induction false} BuildSlotsPointwise(sel: seq<Date>, key: KeyFn, slots: map<DayKey, Times>, applyToAll: bool, global: Times)
    requires applyToAll || Covered(sel, key, slots)
    ensures forall i :: 0 <= i < |sel| ==>
              BuildSlots(sel, key, slots, applyToAll, global).value[i]
              == SlotFor(key(sel[i]), if applyToAll then global else slots[key(sel[i])])
    decreases |sel|
  {
    if |sel| > 0 {
      BuildSlotsPointwise(sel[1..], key, slots, applyToAll, global);
      var r := BuildSlots(sel, key, slots, applyToAll, global).value;
      var rest := BuildSlots(sel[1..], key, slots, applyToAll, global).value;
      assert r == [SlotFor(key(sel[0]), if applyToAll then global else slots[key(sel[0])])] + rest;
      forall i | 1 <= i < |sel|
        ensures r[i] == SlotFor(key(sel[i]), if applyToAll then global else slots[key(sel[i])])
      {
        assert r[i] == rest[i - 1] && sel[i] == sel[1..][i - 1];
      }
    }
  }

  /** The key a failed build reports is the first one, in selection order, missing from the map. */
  lemma {:induction false} BuildSlotsFailsAtFirstMissing(sel: seq<Date>, key: KeyFn, slots: map<DayKey, Times>, applyToAll: bool, global: Times)
    requires BuildSlots(sel, key, slots, applyToAll, global).Failure?
    ensures exists i :: 0 <= i < |sel| && key(sel[i]) == BuildSlots(sel, key, slots, applyToAll, global).error
                        && Covered(sel[..i], key, slots)
    decreases |sel|
  {
    var e := BuildSlots(sel, key, slots, applyToAll, global).error;
    if key(sel[0]) !in slots {
      assert sel[..0] == [];
      assert key(sel[0]) == e;
    } else {
      BuildSlotsFailsAtFirstMissing(sel[1..], key, slots, applyToAll, global);
      var i :| 0 <= i < |sel[1..]| && key(sel[1..][i]) == e && Covered(sel[1..][..i], key, slots);
      assert sel[..i + 1] == [sel[0]] + sel[1..][..i];
      assert key(sel[i + 1]) == e;
    }
  }

  /**
    `handleSubmit`: an undefined or empty selection returns before anything
    is built; otherwise the slots are built and wrapped with the user's
    name, group and password, unchanged.
   */
  function HandleSubmit(sel: Option<seq<Date>>, key: KeyFn, slots: map<DayKey, Times>, applyToAll: bool,
                        global: Times, username: string, groupName: string, password: string): (r: SubmitOutcome)
    ensures r.NoDates? <==> sel.None? || |sel.value| == 0
    ensures r.Send? <==> sel.Some? && |sel.value| > 0 && (applyToAll || Covered(sel.value, key, slots))
    ensures r.Send? ==> (r.payload.userName == username && r.payload.groupName == groupName
                         && r.payload.password == password)
    ensures r.Send? ==> |r.payload.slots| == |sel.value|
    ensures r.LookupFailed? ==> !applyToAll && r.missing !in slots
  {
    if sel.None? || |sel.value| == 0 then
      NoDates
    else
      match BuildSlots(sel.value, key, slots, applyToAll, global)
      case Failure(missing) => LookupFailed(missing)
      case Success(pairs) => Send(Payload(username, groupName, password, pairs))
  }

  /**
    With the toggle on, the per-day map is shadowed: whatever it holds, the
    same slots are built.
   */
  lemma {:induction false} GlobalIgnoresMap(sel: seq<Date>, key: KeyFn, m1: map<DayKey, Times>, m2: map<DayKey, Times>, global: Times)
    ensures BuildSlots(sel, key, m1, true, global) == BuildSlots(sel, key, m2, true, global)
    decreases |sel|
  {
    if |sel| > 0 {
      GlobalIgnoresMap(sel[1..], key, m1, m2, global);
    }
  }

  /** The slots are built date by date: the slots of a concatenation are the concatenated slots. */
  lemma {:induction false} BuildSlotsAppend(a: seq<Date>, b: seq<Date>, key: KeyFn, slots: map<DayKey, Times>, applyToAll: bool, global: Times)
    requires applyToAll || (Covered(a, key, slots) && Covered(b, key, slots))
    ensures BuildSlots(a + b, key, slots, applyToAll, global).Success?
    ensures BuildSlots(a + b, key, slots, applyToAll, global).value
         == BuildSlots(a, key, slots, applyToAll, global).value + BuildSlots(b, key, slots, applyToAll, global).value
    decreases |a|
  {
    if |a| == 0 {
      assert a + b == b;
      assert BuildSlots(a, key, slots, applyToAll, global).value == [];
    } else {
      var ab := a + b;
      assert ab[0] == a[0] && ab[1..] == a[1..] + b;
      assert applyToAll || key(a[0]) in slots;
      assert applyToAll || Covered(a[1..], key, slots);
      BuildSlotsAppend(a[1..], b, key, slots, applyToAll, global);
      var head := SlotFor(key(a[0]), if applyToAll then global else slots[key(a[0])]);
      assert BuildSlots(a, key, slots, applyToAll, global).value
          == [head] + BuildSlots(a[1..], key, slots, applyToAll, global).value;
      assert BuildSlots(ab, key, slots, applyToAll, global).value
          == [head] + BuildSlots(a[1..] + b, key, slots, applyToAll, global).value;
      var sa, sb := BuildSlots(a[1..], key, slots, applyToAll, global).value, BuildSlots(b, key, slots, applyToAll, global).value;
      assert [head] + (sa + sb) == ([head] + sa) + sb;
    }
  }

  /** The head slot of a non-empty selection is split off by `BuildSlotsAppend`. */
  lemma BuildSlotsCons(a: seq<Date>, key: KeyFn, slots: map<DayKey, Times>, applyToAll: bool, global: Times)
    requires |a| > 0
    requires applyToAll || Covered(a, key, slots)
    ensures applyToAll || Covered(a[1..], key, slots)
    ensures multiset(BuildSlots(a, key, slots, applyToAll, global).value)
         == multiset(BuildSlots([a[0]], key, slots, applyToAll, global).value)
          + multiset(BuildSlots(a[1..], key, slots, applyToAll, global).value)
  {
    assert a == [a[0]] + a[1..];
    BuildSlotsAppend([a[0]], a[1..], key, slots, applyToAll, global);
  }

  /** Every contiguous piece of a covered selection is covered. */
  lemma CoveredSlice(b: seq<Date>, lo: nat, hi: nat, key: KeyFn, slots: map<DayKey, Times>)
    requires lo <= hi <= |b|
    requires Covered(b, key, slots)
    ensures Covered(b[lo..hi], key, slots)
  {
    forall i | 0 <= i < hi - lo ensures key(b[lo..hi][i]) in slots {
      assert b[lo..hi][i] == b[lo + i];
    }
  }

  /** Taking one date out of the middle of a selection takes out exactly its slot. */
  lemma BuildSlotsWithout(pre: seq<Date>, d: Date, post: seq<Date>, key: KeyFn, slots: map<DayKey, Times>, applyToAll: bool, global: Times)
    requires applyToAll || Covered(pre + [d] + post, key, slots)
    ensures applyToAll || (key(d) in slots && Covered(pre + post, key, slots))
    ensures multiset(BuildSlots(pre + [d] + post, key, slots, applyToAll, global).value)
         == multiset(BuildSlots([d], key, slots, applyToAll, global).value)
          + multiset(BuildSlots(pre + post, key, slots, applyToAll, global).value)
  {
    var b := pre + [d] + post;
    if !applyToAll {
      CoveredSlice(b, 0, |pre|, key, slots);
      CoveredSlice(b, |pre|, |pre| + 1, key, slots);
      CoveredSlice(b, |pre| + 1, |b|, key, slots);
      assert b[0..|pre|] == pre && b[|pre|..|pre| + 1] == [d] && b[|pre| + 1..|b|] == post;
      assert key(b[|pre|]) in slots;
      assert Covered(pre + post, key, slots) by {
        forall i | 0 <= i < |pre + post| ensures key((pre + post)[i]) in slots {
          if i < |pre| {
            assert (pre + post)[i] == b[i];
          } else {
            assert (pre + post)[i] == b[i + 1];
          }
        }
      }
    }
    var sPre := BuildSlots(pre, key, slots, applyToAll, global).value;
    var sX := BuildSlots([d], key, slots, applyToAll, global).value;
    var sPost := BuildSlots(post, key, slots, applyToAll, global).value;
    BuildSlotsAppend(pre, [d], key, slots, applyToAll, global);
    BuildSlotsAppend(pre + [d], post, key, slots, applyToAll, global);
    BuildSlotsAppend(pre, post, key, slots, applyToAll, global);
    assert multiset(sPre + sX + sPost) == multiset(sPre) + multiset(sX) + multiset(sPost);
    assert multiset(sPre + sPost) == multiset(sPre) + multiset(sPost);
  }

  /** Two selections holding the same dates are covered alike. */
  lemma CoveredPermutation(a: seq<Date>, b: seq<Date>, key: KeyFn, slots: map<DayKey, Times>)
    requires multiset(a) == multiset(b)
    requires Covered(a, key, slots)
    ensures Covered(b, key, slots)
  {
    forall j | 0 <= j < |b| ensures key(b[j]) in slots {
      assert b[j] in multiset(a);
    }
  }

  /** Dropping the head of `a` and a matching element of `b` keeps the multisets equal. */
  lemma MultisetDropMatching(a: seq<Date>, b: seq<Date>, j: nat)
    requires multiset(a) == multiset(b)
    requires |a| > 0 && j < |b| && b[j] == a[0]
    ensures multiset(a[1..]) == multiset(b[..j] + b[j + 1..])
  {
    var x, rest := a[0], b[..j] + b[j + 1..];
    assert a == [x] + a[1..];
    assert b == b[..j] + [x] + b[j + 1..];
    assert multiset(a) == multiset{x} + multiset(a[1..]);
    assert multiset(b) == multiset{x} + multiset(rest);
    forall y ensures multiset(a[1..])[y] == multiset(rest)[y] {
      assert multiset(a)[y] == multiset(b)[y];
    }
  }

  /**
    Reordering the selection reorders the slots: two selections holding the
    same dates give the same slots, counted with multiplicity.
   */
  lemma {:induction false} BuildSlotsPermutation(a: seq<Date>, b: seq<Date>, key: KeyFn, slots: map<DayKey, Times>, applyToAll: bool, global: Times)
    requires multiset(a) == multiset(b)
    requires applyToAll || Covered(a, key, slots)
    ensures BuildSlots(b, key, slots, applyToAll, global).Success?
    ensures multiset(BuildSlots(a, key, slots, applyToAll, global).value)
         == multiset(BuildSlots(b, key, slots, applyToAll, global).value)
    decreases |a|
  {
    if !applyToAll {
      CoveredPermutation(a, b, key, slots);
    }
    if |a| == 0 {
      assert |b| == |multiset(b)| == 0;
    } else {
      var x := a[0];
      var j := IndexOf(b, x, multiset(a));
      var rest := b[..j] + b[j + 1..];
      BuildSlotsCons(a, key, slots, applyToAll, global);
      BuildSlotsRemoveAt(b, j, key, slots, applyToAll, global);
      MultisetDropMatching(a, b, j);
      BuildSlotsPermutation(a[1..], rest, key, slots, applyToAll, global);
    }
  }

  /** Taking out the date at position `j` takes out exactly its slot. */
  lemma BuildSlotsRemoveAt(b: seq<Date>, j: nat, key: KeyFn, slots: map<DayKey, Times>, applyToAll: bool, global: Times)
    requires j < |b|
    requires applyToAll || Covered(b, key, slots)
    ensures applyToAll || (key(b[j]) in slots && Covered(b[..j] + b[j + 1..], key, slots))
    ensures multiset(BuildSlots(b, key, slots, applyToAll, global).value)
         == multiset(BuildSlots([b[j]], key, slots, applyToAll, global).value)
          + multiset(BuildSlots(b[..j] + b[j + 1..], key, slots, applyToAll, global).value)
  {
    assert b == b[..j] + [b[j]] + b[j + 1..];
    BuildSlotsWithout(b[..j], b[j], b[j + 1..], key, slots, applyToAll, global);
  }

  /** A position of `x` in `b`, given that `b` holds the same dates as a sequence containing `x`. */
  lemma IndexOf(b: seq<Date>, x: Date, m: multiset<Date>) returns (j: nat)
    requires x in m && m == multiset(b)
    ensures j < |b| && b[j] == x
  {
    assert x in b;
    j :| 0 <= j < |b| && b[j] == x;
  }
}
