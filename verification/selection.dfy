/**
  Changes to the selection other than the calendar's own: removing one day
  from the list (`removeDate`) and the ascending sort the day list applies,
  in place, while it renders.
 */
module Selection {
  import opened CalendarTypes

  /** `a` is `b` with some elements dropped and the rest kept in order. */
  ghost predicate Subsequence(a: seq<Date>, b: seq<Date>)
    decreases |b|
  {
    if |a| == 0 then true
    else if |b| == 0 then false
    else if a[0] == b[0] then Subsequence(a[1..], b[1..])
    else Subsequence(a, b[1..])
  }

  /** `dates.filter(d => d.getTime() !== time)`. */
  function DropTime(dates: seq<Date>, time: int): (r: seq<Date>)
    ensures |r| <= |dates|
    ensures forall i :: 0 <= i < |r| ==> r[i].time != time
    ensures forall d :: multiset(r)[d] == if d.time == time then 0 else multiset(dates)[d]
    ensures Subsequence(r, dates)
    decreases |dates|
  {
    if |dates| == 0 then []
    else
      assert dates == [dates[0]] + dates[1..];
      var rest := DropTime(dates[1..], time);
      if dates[0].time != time then [dates[0]] + rest else rest
  }

  /** `removeDate(x)`: an undefined selection stays undefined. */
  function RemoveDate(sel: Option<seq<Date>>, x: Date): (r: Option<seq<Date>>)
    ensures r.Some? <==> sel.Some?
    ensures r.Some? ==> |r.value| <= |sel.value| && Subsequence(r.value, sel.value)
    ensures r.Some? ==> forall d :: d in r.value <==> d in sel.value && d.time != x.time
  {
    match sel
    case None => None
    case Some(dates) =>
      var r := DropTime(dates, x.time);
      assert forall d :: d in r <==> multiset(r)[d] > 0;
      Some(r)
  }

  /** Removing the same day twice is the same as removing it once. */
  lemma RemoveDateIdempotent(sel: Option<seq<Date>>, x: Date)
    ensures RemoveDate(RemoveDate(sel, x), x) == RemoveDate(sel, x)
  {
    if sel.Some? {
      NothingToDrop(RemoveDate(sel, x).value, x.time);
    }
  }

  /** Filtering out a timestamp that does not occur returns the sequence unchanged. */
  lemma {:induction false} NothingToDrop(dates: seq<Date>, time: int)
    requires forall i :: 0 <= i < |dates| ==> dates[i].time != time
    ensures DropTime(dates, time) == dates
    decreases |dates|
  {
    if |dates| > 0 {
      NothingToDrop(dates[1..], time);
      assert dates == [dates[0]] + dates[1..];
    }
  }

  /** The dates, ascending by timestamp. */
  ghost predicate Ascending(dates: seq<Date>)
  {
    forall i, j :: 0 <= i < j < |dates| ==> dates[i].time <= dates[j].time
  }

  /** Inserts one date into an ascending sequence. */
  function Insert(d: Date, dates: seq<Date>): (r: seq<Date>)
    requires Ascending(dates)
    ensures Ascending(r)
    ensures multiset(r) == multiset(dates) + multiset{d}
    ensures |r| > 0 && (r[0] == d || (|dates| > 0 && r[0] == dates[0]))
    decreases |dates|
  {
    if |dates| == 0 then [d]
    else if d.time <= dates[0].time then [d] + dates
    else
      assert dates == [dates[0]] + dates[1..];
      var rest := Insert(d, dates[1..]);
      AscendingCons(dates[0], rest);
      [dates[0]] + rest
  }

  /** Putting a date no later than the head in front of an ascending sequence keeps it ascending. */
  lemma AscendingCons(x: Date, rest: seq<Date>)
    requires Ascending(rest)
    requires |rest| > 0 ==> x.time <= rest[0].time
    ensures Ascending([x] + rest)
  {
    forall i, j | 0 <= i < j < |rest| + 1 ensures ([x] + rest)[i].time <= ([x] + rest)[j].time {
      if i > 0 {
        assert ([x] + rest)[i] == rest[i - 1];
      } else {
        assert rest[0].time <= rest[j - 1].time;
      }
    }
  }

  /**
    `selectedDates.sort((a, b) => a.getTime() - b.getTime())`: the comparator
    is a plain timestamp difference, so the result is ascending and holds the
    same dates.
   */
  function SortByTime(dates: seq<Date>): (r: seq<Date>)
    ensures Ascending(r)
    ensures multiset(r) == multiset(dates)
    decreases |dates|
  {
    if |dates| == 0 then []
    else
      assert dates == [dates[0]] + dates[1..];
      Insert(dates[0], SortByTime(dates[1..]))
  }

  /** The first element of an ascending sequence is its earliest. */
  lemma HeadIsEarliest(dates: seq<Date>, x: Date)
    requires Ascending(dates) && x in dates
    ensures dates[0].time <= x.time
  {
    var i :| 0 <= i < |dates| && dates[i] == x;
  }

  /** Two ascending sequences holding the same dates are equal. */
  lemma {:induction false} AscendingUnique(a: seq<Date>, b: seq<Date>)
    requires Ascending(a) && Ascending(b)
    requires multiset(a) == multiset(b)
    ensures a == b
    decreases |a|
  {
    assert |a| == |multiset(a)| == |multiset(b)| == |b|;
    if |a| > 0 {
      assert a[0] in multiset(b);
      assert b[0] in multiset(a);
      HeadIsEarliest(a, b[0]);
      HeadIsEarliest(b, a[0]);
      assert a[0] == b[0];
      SameHeadSameTail(a, b);
      AscendingUnique(a[1..], b[1..]);
    }
  }

  /** Two sequences holding the same dates and starting alike hold the same dates after the head. */
  lemma SameHeadSameTail(a: seq<Date>, b: seq<Date>)
    requires |a| > 0 && |b| > 0 && a[0] == b[0]
    requires multiset(a) == multiset(b)
    ensures multiset(a[1..]) == multiset(b[1..])
  {
    assert a == [a[0]] + a[1..];
    assert b == [b[0]] + b[1..];
    assert multiset(a) == multiset{a[0]} + multiset(a[1..]);
    assert multiset(b) == multiset{b[0]} + multiset(b[1..]);
    forall x ensures multiset(a[1..])[x] == multiset(b[1..])[x] {
      assert multiset(a)[x] == multiset(b)[x];
    }
  }

  /** Sorting an already ascending selection leaves it as it is. */
  lemma SortIdempotent(dates: seq<Date>)
    ensures SortByTime(SortByTime(dates)) == SortByTime(dates)
  {
    AscendingUnique(SortByTime(SortByTime(dates)), SortByTime(dates));
  }

  /** Sorting does not change which day keys the selection holds. */
  lemma SortKeepsKeys(dates: seq<Date>, key: KeyFn)
    ensures KeysOf(SortByTime(dates), key) == KeysOf(dates, key)
  {
    var s := SortByTime(dates);
    assert forall d :: d in s <==> d in dates by {
      forall d ensures d in s <==> d in dates {
        assert d in s <==> d in multiset(s);
      }
    }
  }
}
