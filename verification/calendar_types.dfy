/**
  Shared vocabulary of the availability calendar popup: the selected dates,
  the per-day time map and the optional values that JavaScript spreads into it.
 */
module CalendarTypes {

  /** A value that may be `undefined` in the component's state. */
  datatype Option<+T> = None | Some(value: T)

  /** The outcome of a computation that may throw; the error carries the key that failed. */
  datatype Result<+R, +E> = Success(value: R) | Failure(error: E)

  /** A calendar date, known to the component only through its timestamp (`getTime()`). */
  datatype Date = Date(time: int)

  /** A day key, the text `format(date, 'yyyy-MM-dd')` produces. */
  type DayKey = string

  /**
    The date formatter, left uninterpreted: every function that needs a day
    key takes it as a parameter. Two timestamps may share a key.
   */
  type KeyFn = Date -> DayKey

  /** The two fields of a time range; `handleTimeChange` edits one of them. */
  datatype Field = Start | End

  /**
    A `{start, end}` object. A field is `None` when the object was built by
    spreading `undefined` and then setting only the other field.
   */
  datatype Times = Times(start: Option<string>, end: Option<string>)

  /** The default range every newly selected day receives, 09:00 to 17:00. */
  const DefaultTimes: Times := Times(Some("09:00"), Some("17:00"))

  function FieldOf(t: Times, f: Field): Option<string>
  {
    match f
    case Start => t.start
    case End => t.end
  }

  function Other(f: Field): Field
  {
    match f
    case Start => End
    case End => Start
  }

  /** Every date of the selection has an entry for its day key in the time map. */
  ghost predicate Covered(sel: seq<Date>, key: KeyFn, slots: map<DayKey, Times>)
  {
    forall i :: 0 <= i < |sel| ==> key(sel[i]) in slots
  }

  /** The day keys of a selection, as a set. */
  ghost function KeysOf(sel: seq<Date>, key: KeyFn): set<DayKey>
  {
    set d | d in sel :: key(d)
  }

  /** `m'` keeps every entry of `m` unchanged (it may hold more). */
  ghost predicate Extends(m: map<DayKey, Times>, m': map<DayKey, Times>)
  {
    forall k :: k in m ==> k in m' && m'[k] == m[k]
  }
}
