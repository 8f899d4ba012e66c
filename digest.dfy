/**
 * The daily digest of src/app/page.tsx: `uniqueDates`, the distinct date keys
 * of the forecast list in first-occurrence order (a JavaScript `Set` keeps
 * insertion order), and `firstDataForEachDate`, for each of the first five
 * keys the first sample carrying it (`Array.prototype.find`).
 */
module Digest {
  import opened Wrappers
  import opened Weather

  /** How many day cards the page shows at most (`slice(0, 5)`). */
  const DaysShown: nat := 5

  function Min(a: nat, b: nat): nat {
    if a <= b then a else b
  }

  predicate Distinct(s: seq<int>) {
    forall i, j :: 0 <= i < j < |s| ==> s[i] != s[j]
  }

  function Elements(s: seq<int>): set<int> {
    set x | x in s
  }

  /** The dates the samples of `list` fall on. */
  function SampleDates(list: seq<Sample>): set<int> {
    set i | 0 <= i < |list| :: DateKey(list[i].dt)
  }

  /** The set of distinct date keys of the response; empty when there is none. */
  function DistinctDateKeys(data: Option<WeatherData>): set<int> {
    match data
    case None => {}
    case Some(w) => SampleDates(w.list)
  }

  /** `list.map(entry => dateOf(entry.dt))`: key i is the date of sample i, and no key is not some sample's date. */
  function DateKeys(list: seq<Sample>): (keys: seq<int>)
    ensures |keys| == |list|
    ensures forall i :: 0 <= i < |list| ==> keys[i] == DateKey(list[i].dt)
    ensures forall k :: k in keys <==> k in SampleDates(list)
  {
    var keys := seq(|list|, i requires 0 <= i < |list| => DateKey(list[i].dt));
    KeysAreSampleDates(list, keys);
    keys
  }

  lemma KeysAreSampleDates(list: seq<Sample>, keys: seq<int>)
    requires |keys| == |list| && forall i :: 0 <= i < |list| ==> keys[i] == DateKey(list[i].dt)
    ensures forall k :: k in keys <==> k in SampleDates(list)
  {
    forall k | k in keys ensures k in SampleDates(list) {
      var i :| 0 <= i < |keys| && keys[i] == k;
      assert DateKey(list[i].dt) == k;
    }
    forall k | k in SampleDates(list) ensures k in keys {
      var i :| 0 <= i < |list| && DateKey(list[i].dt) == k;
      assert keys[i] == k;
    }
  }

  /**
   * `[...new Set(s)]`: adding the elements of `s` one by one to a set that
   * remembers insertion order, then listing it.
   */
  function InsertionOrder(s: seq<int>): (r: seq<int>)
    ensures forall x :: x in r <==> x in s
    ensures Distinct(r)
  {
    if s == [] then []
    else
      var r' := InsertionOrder(s[..|s| - 1]);
      var x := s[|s| - 1];
      assert s == s[..|s| - 1] + [x];
      if x in r' then r' else r' + [x]
  }

  /** The index of the first occurrence of `x` in `s`. */
  function FirstPos(s: seq<int>, x: int): (i: nat)
    requires x in s
    ensures i < |s| && s[i] == x
    ensures forall j :: 0 <= j < i ==> s[j] != x
  {
    if s[0] == x then 0 else 1 + FirstPos(s[1..], x)
  }

  lemma FirstPosExtend(p: seq<int>, y: int, x: int)
    requires x in p
    ensures FirstPos(p + [y], x) == FirstPos(p, x)
  {
    var a, b := FirstPos(p + [y], x), FirstPos(p, x);
    assert (p + [y])[b] == x;
  }

  /** Every element of `r` occurs in `s`, and `r` lists them in the order of their first occurrence there. */
  predicate InFirstOccurrenceOrder(s: seq<int>, r: seq<int>) {
    (forall x :: x in r ==> x in s) &&
    forall i, j :: 0 <= i < j < |r| ==> FirstPos(s, r[i]) < FirstPos(s, r[j])
  }

  /** `InsertionOrder` lists the elements in the order of their first occurrence. */
  lemma {:induction false} InsertionOrderFollowsFirstOccurrence(s: seq<int>)
    ensures InFirstOccurrenceOrder(s, InsertionOrder(s))
  {
    if s != [] {
      var p, y := s[..|s| - 1], s[|s| - 1];
      assert s == p + [y];
      var r' := InsertionOrder(p);
      InsertionOrderFollowsFirstOccurrence(p);
      forall x | x in p
        ensures FirstPos(s, x) == FirstPos(p, x) < |p|
      {
        FirstPosExtend(p, y, x);
      }
      var r := InsertionOrder(s);
      if y !in r' {
        assert r == r' + [y];
        assert FirstPos(s, y) == |p|;
        forall i, j | 0 <= i < j < |r|
          ensures FirstPos(s, r[i]) < FirstPos(s, r[j])
        {
          if j < |r'| {
            assert r[i] == r'[i] && r[j] == r'[j];
            assert r'[i] in p && r'[j] in p;
            assert FirstPos(p, r'[i]) < FirstPos(p, r'[j]);
          } else {
            assert r[i] == r'[i] && r[i] in p;
          }
        }
      } else {
        assert r == r';
        forall i, j | 0 <= i < j < |r|
          ensures FirstPos(s, r[i]) < FirstPos(s, r[j])
        {
          assert r'[i] in p && r'[j] in p;
          assert FirstPos(p, r'[i]) < FirstPos(p, r'[j]);
        }
      }
    }
  }

  lemma {:induction false} DistinctCardinality(r: seq<int>)
    requires Distinct(r)
    ensures |Elements(r)| == |r|
  {
    if r != [] {
      var p := r[..|r| - 1];
      DistinctCardinality(p);
      assert Elements(r) == Elements(p) + {r[|r| - 1]};
    }
  }

  /**
   * `uniqueDates`: the key of every sample exactly once and nothing else,
   * listed in the order in which the keys first occur in the list. An absent
   * response gives `new Set(undefined)`, which is empty.
   */
  function UniqueDates(data: Option<WeatherData>): (r: seq<int>)
    ensures forall k :: k in r <==> k in DistinctDateKeys(data)
    ensures Distinct(r)
    ensures data.Some? ==> InFirstOccurrenceOrder(DateKeys(data.value.list), r)
  {
    match data
    case None => []
    case Some(w) =>
      InsertionOrderFollowsFirstOccurrence(DateKeys(w.list));
      InsertionOrder(DateKeys(w.list))
  }

  /** `list.find(entry => dateOf(entry.dt) === date)` */
  function Find(list: seq<Sample>, date: int): (r: Option<Sample>)
    ensures r.None? <==> forall j :: 0 <= j < |list| ==> DateKey(list[j].dt) != date
    ensures r.Some? ==> DateKey(r.value.dt) == date
    ensures r.Some? ==>
      exists p :: 0 <= p < |list| && list[p] == r.value &&
        forall j :: 0 <= j < p ==> DateKey(list[j].dt) != date
  {
    if list == [] then None
    else if DateKey(list[0].dt) == date then Some(list[0])
    else
      var r := Find(list[1..], date);
      assert forall j :: 1 <= j < |list| ==> list[j] == list[1..][j - 1];
      r
  }

  /** Searching for a key taken from the list itself always finds a sample. */
  lemma FindsEveryKey(data: Option<WeatherData>)
    ensures forall x :: x in UniqueDates(data) ==> FindIn(data, x).Some?
  {
    if data.Some? {
      var list := data.value.list;
      forall x | x in UniqueDates(data)
        ensures Find(list, x).Some?
      {
        var j :| 0 <= j < |list| && DateKeys(list)[j] == x;
        assert DateKey(list[j].dt) == x;
      }
    }
  }

  /** `data?.list.find(...)`: the first sample of the response on `date`, absent exactly when there is none. */
  function FindIn(data: Option<WeatherData>, date: int): (r: Option<Sample>)
    ensures r.None? <==> date !in DistinctDateKeys(data)
    ensures r.Some? ==> data.Some? && r.value in data.value.list && DateKey(r.value.dt) == date
    ensures r.Some? ==>
      date in DateKeys(data.value.list) && r.value == data.value.list[FirstPos(DateKeys(data.value.list), date)]
  {
    match data
    case None => None
    case Some(w) =>
      FindIsFirstPos(w.list, date);
      Find(w.list, date)
  }

  /** What `Find` returns is the sample at the first index whose key is `date`. */
  lemma FindIsFirstPos(list: seq<Sample>, date: int)
    ensures Find(list, date).Some? ==>
      date in DateKeys(list) && Find(list, date).value == list[FirstPos(DateKeys(list), date)]
  {
    var r := Find(list, date);
    if r.Some? {
      var keys := DateKeys(list);
      var p :| 0 <= p < |list| && list[p] == r.value &&
        forall j :: 0 <= j < p ==> DateKey(list[j].dt) != date;
      assert keys[p] == date;
      var q := FirstPos(keys, date);
      assert keys[q] == DateKey(list[q].dt);
    }
  }

  /** `firstDataForEachDate`: the first sample of each of the first five dates. */
  function FirstDataForEachDate(data: Option<WeatherData>): (r: seq<Option<Sample>>)
    ensures |r| == Min(|UniqueDates(data)|, DaysShown)
    ensures forall i :: 0 <= i < |r| ==>
      data.Some? && r[i].Some? && r[i].value in data.value.list &&
      DateKey(r[i].value.dt) == UniqueDates(data)[i]
  {
    match data
    case None => []
    case Some(w) =>
      var dates := UniqueDates(data);
      var n := Min(|dates|, DaysShown);
      var r := seq(n, i requires 0 <= i < n => FindIn(data, dates[i]));
      EntriesOnTheirDates(w, dates, r);
      r
  }

  lemma EntriesOnTheirDates(w: WeatherData, dates: seq<int>, r: seq<Option<Sample>>)
    requires forall x :: x in dates ==> x in SampleDates(w.list)
    requires |r| <= |dates| && forall i :: 0 <= i < |r| ==> r[i] == FindIn(Some(w), dates[i])
    ensures forall i :: 0 <= i < |r| ==>
      r[i].Some? && r[i].value in w.list && DateKey(r[i].value.dt) == dates[i]
  {
    forall i | 0 <= i < |r|
      ensures r[i].Some? && r[i].value in w.list && DateKey(r[i].value.dt) == dates[i]
    {
      assert dates[i] in dates;
      assert dates[i] in SampleDates(w.list);
    }
  }

  predicate SortedByTime(list: seq<Sample>) {
    forall i, j :: 0 <= i <= j < |list| ==> list[i].dt <= list[j].dt
  }

  /** A keyed sequence listed in first-occurrence order of a sorted sequence is strictly increasing. */
  lemma FirstOccurrenceOfSortedIncreases(s: seq<int>, r: seq<int>)
    requires forall i, j :: 0 <= i <= j < |s| ==> s[i] <= s[j]
    requires InFirstOccurrenceOrder(s, r) && Distinct(r)
    ensures forall i, j :: 0 <= i < j < |r| ==> r[i] < r[j]
  {
    forall i, j | 0 <= i < j < |r|
      ensures r[i] < r[j]
    {
      assert s[FirstPos(s, r[i])] <= s[FirstPos(s, r[j])];
    }
  }

  /** With a chronologically sorted list, `uniqueDates` is strictly increasing. */
  lemma UniqueDatesIncreasing(data: Option<WeatherData>)
    requires data.Some? && SortedByTime(data.value.list)
    ensures var u := UniqueDates(data); forall i, j :: 0 <= i < j < |u| ==> u[i] < u[j]
  {
    var keys := DateKeys(data.value.list);
    forall i, j | 0 <= i <= j < |keys|
      ensures keys[i] <= keys[j]
    {
      DateKeyMonotone(data.value.list[i].dt, data.value.list[j].dt);
    }
    FirstOccurrenceOfSortedIncreases(keys, UniqueDates(data));
  }

  /**
   * The digest has one entry per distinct date, up to five; an absent
   * response or an empty list gives no entry.
   */
  lemma DigestLength(data: Option<WeatherData>)
    ensures |FirstDataForEachDate(data)| == Min(|DistinctDateKeys(data)|, DaysShown)
    ensures data.None? || data.value.list == [] ==> FirstDataForEachDate(data) == []
  {
    var u := UniqueDates(data);
    DistinctCardinality(u);
    assert Elements(u) == DistinctDateKeys(data);
  }

  /** The dates of two digest entries are never the same. */
  lemma DigestDatesDistinct(data: Option<WeatherData>)
    ensures var r := FirstDataForEachDate(data);
      forall i, j :: 0 <= i < j < |r| ==> DateKey(r[i].value.dt) != DateKey(r[j].value.dt)
  {
  }

  /** Each digest entry is the earliest sample of its date: no sample before it shares its date. */
  lemma DigestEntriesAreFirstOfDay(data: Option<WeatherData>)
    ensures var r := FirstDataForEachDate(data);
      forall i :: 0 <= i < |r| ==>
        exists p :: 0 <= p < |data.value.list| && data.value.list[p] == r[i].value &&
          forall j :: 0 <= j < p ==> DateKey(data.value.list[j].dt) != DateKey(r[i].value.dt)
  {
    var r := FirstDataForEachDate(data);
    forall i | 0 <= i < |r|
      ensures exists p :: 0 <= p < |data.value.list| && data.value.list[p] == r[i].value &&
                (forall j :: 0 <= j < p ==> DateKey(data.value.list[j].dt) != DateKey(r[i].value.dt))
    {
      assert r[i] == Find(data.value.list, UniqueDates(data)[i]);
    }
  }

  /** For a chronologically sorted list the digest runs forward in time, one day after another. */
  lemma DigestChronological(data: Option<WeatherData>)
    requires data.Some? && SortedByTime(data.value.list)
    ensures var r := FirstDataForEachDate(data);
      forall i, j :: 0 <= i < j < |r| ==>
        DateKey(r[i].value.dt) < DateKey(r[j].value.dt) && r[i].value.dt < r[j].value.dt
  {
    UniqueDatesIncreasing(data);
    var r := FirstDataForEachDate(data);
    forall i, j | 0 <= i < j < |r|
      ensures r[i].value.dt < r[j].value.dt
    {
      if r[j].value.dt <= r[i].value.dt {
        DateKeyMonotone(r[j].value.dt, r[i].value.dt);
      }
    }
  }
}
