/**
  The effect that runs after every change of the selection: each selected
  day without an entry in the time map receives the default range.
 */
module Population {
  import opened CalendarTypes

  /**
    The `forEach` over the selection, in order: returns the extended copy of
    the map and the `hasChanges` flag. An entry that is already present is
    never touched, so a range the user edited survives reselection.
   */
  function PopulateFrom(sel: seq<Date>, key: KeyFn, slots: map<DayKey, Times>): (r: (map<DayKey, Times>, bool))
    ensures r.0.Keys == slots.Keys + KeysOf(sel, key)
    ensures Extends(slots, r.0)
    ensures forall k :: k in r.0 && k !in slots ==> r.0[k] == DefaultTimes
    ensures r.1 <==> exists d :: d in sel && key(d) !in slots
    decreases |sel|
  {
    if |sel| == 0 then
      (slots, false)
    else
      var k := key(sel[0]);
      if k in slots then
        PopulateFrom(sel[1..], key, slots)
      else
        var (next, _) := PopulateFrom(sel[1..], key, slots[k := DefaultTimes]);
        (next, true)
  }

  /**
    The whole effect: an undefined selection leaves the map alone, and the
    map is replaced only when some entry was added.
   */
  function PopulateEffect(sel: Option<seq<Date>>, key: KeyFn, slots: map<DayKey, Times>): (r: map<DayKey, Times>)
    ensures sel.Some? ==> Covered(sel.value, key, r)
    ensures Extends(slots, r)
    ensures forall k :: k in r && k !in slots ==> r[k] == DefaultTimes
    ensures sel.None? ==> r == slots
  {
    match sel
    case None => slots
    case Some(dates) =>
      var (next, hasChanges) := PopulateFrom(dates, key, slots);
      if hasChanges then next else slots
  }

  /**
    The `hasChanges` flag only saves a state update: when nothing was added,
    the copy equals the original, so the effect always yields the copy.
   */
  lemma UnchangedCopyIsOriginal(sel: seq<Date>, key: KeyFn, slots: map<DayKey, Times>)
    ensures PopulateEffect(Some(sel), key, slots) == PopulateFrom(sel, key, slots).0
  {
    var (next, hasChanges) := PopulateFrom(sel, key, slots);
    if !hasChanges {
      assert KeysOf(sel, key) <= slots.Keys;
      assert next.Keys == slots.Keys;
    }
  }

  /** The keys after population are exactly the old keys plus the selected days' keys. */
  lemma PopulateKeys(sel: seq<Date>, key: KeyFn, slots: map<DayKey, Times>)
    ensures PopulateEffect(Some(sel), key, slots).Keys == slots.Keys + KeysOf(sel, key)
  {
    UnchangedCopyIsOriginal(sel, key, slots);
  }

  /** Running the effect a second time on the same selection changes nothing. */
  lemma PopulateIdempotent(sel: Option<seq<Date>>, key: KeyFn, slots: map<DayKey, Times>)
    ensures PopulateEffect(sel, key, PopulateEffect(sel, key, slots)) == PopulateEffect(sel, key, slots)
  {
    if sel.Some? {
      var once := PopulateEffect(sel, key, slots);
      var (_, again) := PopulateFrom(sel.value, key, once);
      assert !again;
    }
  }

  /** A map that already covers the selection is left exactly as it was. */
  lemma PopulateCoveredIsIdentity(sel: seq<Date>, key: KeyFn, slots: map<DayKey, Times>)
    requires Covered(sel, key, slots)
    ensures PopulateEffect(Some(sel), key, slots) == slots
  {
  }
}
