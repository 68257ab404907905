/**
  Edits of time ranges: one field of one day's entry (`handleTimeChange`),
  and one field of the global range behind the "same time for all days" toggle.
 */
module SlotEdits {
  import opened CalendarTypes

  /**
    `{ ...prev, [field]: value }`: the edited field takes the new value and
    the other field is copied from `prev`, or is missing when `prev` is
    undefined.
   */
  function WithField(prev: Option<Times>, field: Field, value: string): (t: Times)
    ensures FieldOf(t, field) == Some(value)
    ensures FieldOf(t, Other(field)) == (if prev.Some? then FieldOf(prev.value, Other(field)) else None)
  {
    var base := if prev.Some? then prev.value else Times(None, None);
    match field
    case Start => base.(start := Some(value))
    case End => base.(end := Some(value))
  }

  /** `prev[k]` for a JavaScript record: undefined when the key is absent. */
  function Lookup(slots: map<DayKey, Times>, k: DayKey): (r: Option<Times>)
    ensures r.Some? <==> k in slots
    ensures r.Some? ==> r.value == slots[k]
  {
    if k in slots then Some(slots[k]) else None
  }

  /**
    `handleTimeChange(date, field, value)`: sets `field` of the entry for the
    date's day key and leaves the other field and every other key alone.
   */
  function HandleTimeChange(slots: map<DayKey, Times>, key: KeyFn, date: Date, field: Field, value: string): (r: map<DayKey, Times>)
    ensures r.Keys == slots.Keys + {key(date)}
    ensures FieldOf(r[key(date)], field) == Some(value)
    ensures key(date) in slots ==> FieldOf(r[key(date)], Other(field)) == FieldOf(slots[key(date)], Other(field))
    ensures key(date) !in slots ==> FieldOf(r[key(date)], Other(field)) == None
    ensures forall k :: k in slots && k != key(date) ==> r[k] == slots[k]
  {
    var k := key(date);
    slots[k := WithField(Lookup(slots, k), field, value)]
  }

  /** `setGlobalTime({ ...globalTime, [field]: value })`. */
  function EditGlobal(global: Times, field: Field, value: string): (r: Times)
    ensures FieldOf(r, field) == Some(value)
    ensures FieldOf(r, Other(field)) == FieldOf(global, Other(field))
  {
    WithField(Some(global), field, value)
  }

  /** Editing a field and then restoring its old value gives back the original map. */
  lemma EditRestore(slots: map<DayKey, Times>, key: KeyFn, date: Date, field: Field, value: string)
    requires key(date) in slots
    requires FieldOf(slots[key(date)], field).Some?
    ensures HandleTimeChange(HandleTimeChange(slots, key, date, field, value), key, date, field,
                             FieldOf(slots[key(date)], field).value) == slots
  {
    var k := key(date);
    var once := HandleTimeChange(slots, key, date, field, value);
    var twice := HandleTimeChange(once, key, date, field, FieldOf(slots[k], field).value);
    assert twice[k] == slots[k] by {
      match field
      case Start =>
      case End =>
    }
  }

  /** Two edits of the same field of the same day: the later one wins. */
  lemma LastEditWins(slots: map<DayKey, Times>, key: KeyFn, date: Date, field: Field, v1: string, v2: string)
    ensures HandleTimeChange(HandleTimeChange(slots, key, date, field, v1), key, date, field, v2)
         == HandleTimeChange(slots, key, date, field, v2)
  {
    var k := key(date);
    var a := HandleTimeChange(HandleTimeChange(slots, key, date, field, v1), key, date, field, v2);
    var b := HandleTimeChange(slots, key, date, field, v2);
    assert a[k] == b[k] by {
      match field
      case Start =>
      case End =>
    }
  }

  /** Edits of the two different fields of one day commute. */
  lemma FieldEditsCommute(slots: map<DayKey, Times>, key: KeyFn, date: Date, vs: string, ve: string)
    ensures HandleTimeChange(HandleTimeChange(slots, key, date, Start, vs), key, date, End, ve)
         == HandleTimeChange(HandleTimeChange(slots, key, date, End, ve), key, date, Start, vs)
  {
  }
}
