/** `analyseCashFlow`: parse a list of transaction records, bucket them by
    calendar day, fit a line to the daily totals and report statistics,
    a forecast and the per-day history. */
module CashFlow {
  import opened Wrappers
  import opened Dynamic
  import opened SeqMath
  import opened Ols

  const NoTransactions := "no transactions provided"
  const NoValidTransactions := "no valid transactions after parsing"
  const FitFailedPrefix := "failed to fit model: "

  /** Forecast length used when the requested one is not positive. */
  const DefaultHorizon := 7
  const SecondsPerDay := 86400
  const TrendThreshold: real := 0.01

  /** One date layout: `time.Parse` with that layout, to an instant in
      seconds since Go's zero time, or `None` on a parse error. */
  type Parser = string -> Option<int>

  // ---------------------------------------------------------------------
  // Parsing one record
  // ---------------------------------------------------------------------

  /** The first layout that parses `s` decides the instant. */
  function ParseFirst(layouts: seq<Parser>, s: string): Option<int>
  {
    if |layouts| == 0 then None
    else if layouts[0](s).Some? then layouts[0](s)
    else ParseFirst(layouts[1..], s)
  }

  /** The layout loop: stop at the first layout without an error. */
  method ParseDate(layouts: seq<Parser>, s: string) returns (t: Option<int>)
    ensures t == ParseFirst(layouts, s)
    ensures t.Some? <==> exists i :: 0 <= i < |layouts| && layouts[i](s).Some?
  {
    t := None;
    var i := 0;
    while i < |layouts|
      invariant 0 <= i <= |layouts|
      invariant ParseFirst(layouts, s) == ParseFirst(layouts[i..], s)
      invariant forall j :: 0 <= j < i ==> layouts[j](s).None?
    {
      assert layouts[i..][1..] == layouts[i + 1..];
      t := layouts[i](s);
      if t.Some? {
        return;
      }
      i := i + 1;
    }
    t := None;
  }

  /** The date of a record: a string tried against every layout, or a
      `time.Time` taken as it is; anything else is rejected. */
  function DateOf(layouts: seq<Parser>, r: Record): Option<int>
  {
    if "date" in r && r["date"].Str? then ParseFirst(layouts, r["date"].s)
    else if "date" in r && r["date"].Time? then Some(r["date"].t)
    else None
  }

  /** The amount of a record: float64, float32, int or int64; anything
      else (a string, a missing key) is rejected. */
  function AmountOf(r: Record): (a: Option<real>)
    ensures a.Some? <==> "amount" in r && (r["amount"].Float64? || r["amount"].Float32? || r["amount"].Int? || r["amount"].Int64?)
  {
    if "amount" !in r then None
    else match r["amount"]
      case Float64(f) => Some(f)
      case Float32(f) => Some(f)
      case Int(i) => Some(i as real)
      case Int64(i) => Some(i as real)
      case _ => None
  }

  /** A record that survives parsing. */
  datatype Entry = Entry(date: int, amount: real)

  function Accept(layouts: seq<Parser>, r: Record): Option<Entry>
  {
    if DateOf(layouts, r).Some? && AmountOf(r).Some? then Some(Entry(DateOf(layouts, r).value, AmountOf(r).value))
    else None
  }

  /** The surviving records, in input order. */
  function Accepted(layouts: seq<Parser>, txns: seq<Record>): seq<Entry>
  {
    if |txns| == 0 then []
    else
      var last := Accept(layouts, txns[|txns| - 1]);
      Accepted(layouts, txns[..|txns| - 1]) + (if last.Some? then [last.value] else [])
  }

  // ---------------------------------------------------------------------
  // Minimum date and day buckets
  // ---------------------------------------------------------------------

  /** `if minDate.IsZero() || txnDate.Before(minDate)`. */
  function TrackMin(current: int, t: int): int
  {
    if current == 0 || t < current then t else current
  }

  function MinDateOf(es: seq<Entry>): int
  {
    if |es| == 0 then 0 else TrackMin(MinDateOf(es[..|es| - 1]), es[|es| - 1].date)
  }

  /** `Format("2006-01-02")` as a day index (UTC). */
  function DayKey(t: int): int
  {
    t / SecondsPerDay
  }

  /** Add one entry to its bucket, creating the bucket dated by this entry
      when it is the first of its day. */
  function AddEntry(m: map<int, DayData>, e: Entry): map<int, DayData>
  {
    var k := DayKey(e.date);
    var d := if k in m then m[k] else DayData(0, e.date, 0.0, 0);
    m[k := d.(amount := d.amount + e.amount, count := d.count + 1)]
  }

  function DayMapOf(es: seq<Entry>): map<int, DayData>
  {
    if |es| == 0 then map[] else AddEntry(DayMapOf(es[..|es| - 1]), es[|es| - 1])
  }

  function KeysOf(es: seq<Entry>): (ks: seq<int>)
    ensures |ks| == |es| && forall i :: 0 <= i < |es| ==> ks[i] == DayKey(es[i].date)
  {
    if |es| == 0 then [] else KeysOf(es[..|es| - 1]) + [DayKey(es[|es| - 1].date)]
  }

  function DatesOf(es: seq<Entry>): (ds: seq<int>)
    ensures |ds| == |es| && forall i :: 0 <= i < |es| ==> ds[i] == es[i].date
  {
    if |es| == 0 then [] else DatesOf(es[..|es| - 1]) + [es[|es| - 1].date]
  }

  /** Sum of the amounts of the entries on day `k`. */
  function AmountOn(es: seq<Entry>, k: int): real
  {
    if |es| == 0 then 0.0
    else AmountOn(es[..|es| - 1], k) + (if DayKey(es[|es| - 1].date) == k then es[|es| - 1].amount else 0.0)
  }

  /** Every bucket sits under its own day key and carries no day number
      yet. */
  predicate WellKeyed(m: map<int, DayData>)
  {
    forall k :: k in m ==> DayKey(m[k].date) == k && m[k].dayNumber == 0
  }

  // ---------------------------------------------------------------------
  // Step 1: the parsing loop
  // ---------------------------------------------------------------------

  lemma {:induction false} AcceptedStep(layouts: seq<Parser>, txns: seq<Record>, i: nat)
    requires i < |txns|
    ensures Accept(layouts, txns[i]).None? ==> Accepted(layouts, txns[..i + 1]) == Accepted(layouts, txns[..i])
    ensures Accept(layouts, txns[i]).Some? ==>
              Accepted(layouts, txns[..i + 1]) == Accepted(layouts, txns[..i]) + [Accept(layouts, txns[i]).value]
  {
    assert txns[..i + 1][..i] == txns[..i];
    assert Accepted(layouts, txns[..i]) + [] == Accepted(layouts, txns[..i]);
  }

  /** `AddEntry` as the loop performs it: create the bucket if needed,
      then update it. */
  lemma {:induction false} AddEntryUnfold(m: map<int, DayData>, e: Entry, m': map<int, DayData>)
    requires m' == if DayKey(e.date) in m then m else m[DayKey(e.date) := DayData(0, e.date, 0.0, 0)]
    ensures AddEntry(m, e)
         == m'[DayKey(e.date) := m'[DayKey(e.date)].(amount := m'[DayKey(e.date)].amount + e.amount,
                                                     count := m'[DayKey(e.date)].count + 1)]
  {
  }

  lemma {:induction false} EntriesStep(es: seq<Entry>, e: Entry)
    ensures MinDateOf(es + [e]) == TrackMin(MinDateOf(es), e.date)
    ensures DayMapOf(es + [e]) == AddEntry(DayMapOf(es), e)
  {
    assert (es + [e])[..|es|] == es;
  }

  /** The date extraction of one record. */
  method RecordDate(layouts: seq<Parser>, txn: Record) returns (date: Option<int>)
    ensures date == DateOf(layouts, txn)
  {
    if "date" in txn && txn["date"].Str? {
      date := ParseDate(layouts, txn["date"].s);
    } else if "date" in txn && txn["date"].Time? {
      date := Some(txn["date"].t);
    } else {
      date := None;
    }
  }

  /** Aggregate one accepted record into its day's bucket, creating the
      bucket (dated by this record) when the day is new. */
  method AddToDay(dayMap: map<int, DayData>, txnDate: int, amount: real) returns (updated: map<int, DayData>)
    ensures updated == AddEntry(dayMap, Entry(txnDate, amount))
  {
    var dateKey := DayKey(txnDate);
    updated := dayMap;
    if dateKey !in updated {
      updated := updated[dateKey := DayData(0, txnDate, 0.0, 0)];
    }
    AddEntryUnfold(dayMap, Entry(txnDate, amount), updated);
    updated := updated[dateKey := updated[dateKey].(amount := updated[dateKey].amount + amount,
                                                    count := updated[dateKey].count + 1)];
  }

  /** The aggregation loop: skip records whose date or amount does not
      parse, track the earliest date and add the rest to their day's
      bucket. */
  method Aggregate(txns: seq<Record>, layouts: seq<Parser>) returns (dayMap: map<int, DayData>, minDate: int)
    ensures dayMap == DayMapOf(Accepted(layouts, txns))
    ensures minDate == MinDateOf(Accepted(layouts, txns))
  {
    dayMap := map[];
    minDate := 0;
    for i := 0 to |txns|
      invariant dayMap == DayMapOf(Accepted(layouts, txns[..i]))
      invariant minDate == MinDateOf(Accepted(layouts, txns[..i]))
    {
      AcceptedStep(layouts, txns, i);
      var txn := txns[i];
      var date := RecordDate(layouts, txn);
      if date.None? {
        continue;
      }
      var txnDate := date.value;
      var amount := AmountOf(txn);
      if amount.None? {
        continue;
      }
      ghost var entry := Entry(txnDate, amount.value);
      EntriesStep(Accepted(layouts, txns[..i]), entry);
      assert Accepted(layouts, txns[..i + 1]) == Accepted(layouts, txns[..i]) + [entry];
      if minDate == 0 || txnDate < minDate {
        minDate := txnDate;
      }
      assert minDate == MinDateOf(Accepted(layouts, txns[..i + 1]));
      dayMap := AddToDay(dayMap, txnDate, amount.value);
    }
    assert txns[..|txns|] == txns;
  }

  // ---------------------------------------------------------------------
  // Lemmas: parsing and bucketing
  // ---------------------------------------------------------------------

  /** A record whose date or amount does not parse changes nothing: the
      accepted entries, hence the earliest date and the buckets, are those
      of the list without it. */
  lemma {:induction false} SkippedRecordIgnored(layouts: seq<Parser>, before: seq<Record>, r: Record, after: seq<Record>)
    requires Accept(layouts, r).None?
    ensures Accepted(layouts, before + [r] + after) == Accepted(layouts, before + after)
    ensures MinDateOf(Accepted(layouts, before + [r] + after)) == MinDateOf(Accepted(layouts, before + after))
    ensures DayMapOf(Accepted(layouts, before + [r] + after)) == DayMapOf(Accepted(layouts, before + after))
  {
    if |after| == 0 {
      assert (before + [r] + after)[..|before|] == before;
      assert before + after == before;
      assert Accepted(layouts, before) + [] == Accepted(layouts, before);
    } else {
      var init := after[..|after| - 1];
      SkippedRecordIgnored(layouts, before, r, init);
      assert (before + [r] + after)[..|before| + 1 + |init|] == before + [r] + init;
      assert (before + after)[..|before| + |init|] == before + init;
    }
  }

  /** Nothing survives parsing exactly when every record is rejected. */
  lemma {:induction false} AcceptedEmpty(layouts: seq<Parser>, txns: seq<Record>)
    ensures |Accepted(layouts, txns)| == 0 <==> forall i :: 0 <= i < |txns| ==> Accept(layouts, txns[i]).None?
    ensures |Accepted(layouts, txns)| <= |txns|
  {
    if |txns| > 0 {
      var init := txns[..|txns| - 1];
      AcceptedEmpty(layouts, init);
      assert forall i :: 0 <= i < |init| ==> init[i] == txns[i];
    }
  }

  predicate NoZeroDates(es: seq<Entry>)
  {
    forall i :: 0 <= i < |es| ==> es[i].date != 0
  }

  /** Unless an accepted record is dated at Go's zero instant (which the
      tracking mistakes for "unset"), the tracked date is the earliest
      accepted date. */
  lemma {:induction false} MinDateIsEarliest(es: seq<Entry>)
    requires |es| > 0 && NoZeroDates(es)
    ensures forall i :: 0 <= i < |es| ==> MinDateOf(es) <= es[i].date
    ensures MinDateOf(es) in DatesOf(es)
  {
    var init := es[..|es| - 1];
    if |init| > 0 {
      assert forall i :: 0 <= i < |init| ==> init[i] == es[i];
      MinDateIsEarliest(init);
      assert DatesOf(es) == DatesOf(init) + [es[|es| - 1].date];
    }
  }

  /** The buckets are keyed by day, one per day that has an accepted
      entry, and each is dated by an accepted entry of that day. */
  lemma {:induction false} DayMapKeys(es: seq<Entry>)
    ensures WellKeyed(DayMapOf(es))
    ensures forall k :: k in DayMapOf(es) <==> k in KeysOf(es)
    ensures forall k :: k in DayMapOf(es) ==> DayMapOf(es)[k].date in DatesOf(es)
  {
    if |es| > 0 {
      var init := es[..|es| - 1];
      DayMapKeys(init);
      assert KeysOf(es) == KeysOf(init) + [DayKey(es[|es| - 1].date)];
      assert DatesOf(es) == DatesOf(init) + [es[|es| - 1].date];
    }
  }

  /** Each bucket counts the entries of its day. */
  lemma {:induction false} DayMapCounts(es: seq<Entry>)
    ensures forall k :: k in DayMapOf(es) ==> DayMapOf(es)[k].count == multiset(KeysOf(es))[k]
  {
    if |es| > 0 {
      var init := es[..|es| - 1];
      DayMapCounts(init);
      DayMapKeys(init);
      assert KeysOf(es) == KeysOf(init) + [DayKey(es[|es| - 1].date)];
    }
  }

  /** Each bucket sums the amounts of the entries of its day. */
  lemma {:induction false} DayMapAmounts(es: seq<Entry>)
    ensures forall k :: k in DayMapOf(es) ==> DayMapOf(es)[k].amount == AmountOn(es, k)
  {
    if |es| > 0 {
      var init := es[..|es| - 1];
      DayMapAmounts(init);
      DayMapKeys(init);
      var k := DayKey(es[|es| - 1].date);
      if k !in DayMapOf(init) {
        AmountOnAbsent(init, k);
      }
    }
  }

  lemma {:induction false} AmountOnAbsent(es: seq<Entry>, k: int)
    requires k !in KeysOf(es)
    ensures AmountOn(es, k) == 0.0
  {
    if |es| > 0 {
      var init := es[..|es| - 1];
      assert KeysOf(es) == KeysOf(init) + [DayKey(es[|es| - 1].date)];
      AmountOnAbsent(init, k);
    }
  }

  // ---------------------------------------------------------------------
  // Ordering and numbering the days
  // ---------------------------------------------------------------------

  predicate SortedByDate(s: seq<DayData>)
  {
    forall i, j :: 0 <= i < j < |s| ==> s[i].date <= s[j].date
  }

  /** The state of an insertion pass that has carried the element
      started at `i` down to `j`: the rest of `s[..i + 1]` is sorted and the
      carried element is earlier than everything after it. */
  predicate Inserting(s: seq<DayData>, i: nat, j: nat)
    requires j <= i < |s|
  {
    (forall m, n :: 0 <= m < n <= i && m != j && n != j ==> s[m].date <= s[n].date)
    && (forall n :: j < n <= i ==> s[j].date < s[n].date)
  }

  lemma {:induction false} SwapDown(s: seq<DayData>, i: nat, j: nat)
    requires 0 < j <= i < |s| && Inserting(s, i, j) && s[j - 1].date > s[j].date
    ensures Inserting(s[j - 1 := s[j]][j := s[j - 1]], i, j - 1)
    ensures multiset(s[j - 1 := s[j]][j := s[j - 1]]) == multiset(s)
  {
  }

  lemma {:induction false} InsertingDone(s: seq<DayData>, i: nat, j: nat)
    requires j <= i < |s| && Inserting(s, i, j)
    requires j == 0 || s[j - 1].date <= s[j].date
    ensures SortedByDate(s[..i + 1])
  {
  }

  /** One pass of the insertion sort: move `a[i]` left past every later
      date. */
  method InsertLast(a: array<DayData>, i: nat)
    requires i < a.Length && SortedByDate(a[..i])
    modifies a
    ensures SortedByDate(a[..i + 1])
    ensures multiset(a[..]) == multiset(old(a[..]))
  {
    var j := i;
    while j > 0 && a[j - 1].date > a[j].date
      invariant 0 <= j <= i
      invariant multiset(a[..]) == multiset(old(a[..]))
      invariant Inserting(a[..], i, j)
    {
      SwapDown(a[..], i, j);
      a[j - 1], a[j] := a[j], a[j - 1];
      j := j - 1;
    }
    InsertingDone(a[..], i, j);
  }

  /** `sort.Slice` by `Date.Before`, as an insertion sort in place. */
  method SortByDate(a: array<DayData>)
    modifies a
    ensures SortedByDate(a[..])
    ensures multiset(a[..]) == multiset(old(a[..]))
  {
    for i := 0 to a.Length
      invariant SortedByDate(a[..i])
      invariant multiset(a[..]) == multiset(old(a[..]))
    {
      InsertLast(a, i);
    }
    assert a[..a.Length] == a[..];
  }

  /** Each element is the bucket of its own day. */
  predicate BucketsOf(s: seq<DayData>, dayMap: map<int, DayData>)
  {
    forall i :: 0 <= i < |s| ==> DayKey(s[i].date) in dayMap && dayMap[DayKey(s[i].date)] == s[i]
  }

  /** Every bucket of the map occurs in `s`. */
  predicate Covers(s: seq<DayData>, dayMap: map<int, DayData>)
  {
    forall k :: k in dayMap ==> dayMap[k] in s
  }

  /** The range over the map: every bucket once, in no particular order. */
  method CollectDays(dayMap: map<int, DayData>) returns (values: seq<DayData>)
    requires WellKeyed(dayMap)
    ensures |values| == |dayMap| && Distinct(values)
    ensures BucketsOf(values, dayMap) && Covers(values, dayMap)
  {
    values := [];
    ghost var keys: seq<int> := [];
    var remaining := dayMap.Keys;
    while remaining != {}
      invariant |values| == |keys| && |keys| + |remaining| == |dayMap|
      invariant remaining <= dayMap.Keys
      invariant forall i :: 0 <= i < |keys| ==> keys[i] in dayMap && keys[i] !in remaining && values[i] == dayMap[keys[i]]
      invariant forall k :: k in dayMap ==> k in remaining || k in keys
      invariant Distinct(keys)
      decreases |remaining|
    {
      NonEmptySet(remaining);
      var k :| k in remaining;
      values := values + [dayMap[k]];
      keys := keys + [k];
      remaining := remaining - {k};
    }
    forall i, j | 0 <= i < j < |values|
      ensures values[i] != values[j]
    {
      assert DayKey(values[i].date) == keys[i] && DayKey(values[j].date) == keys[j];
    }
    forall k | k in dayMap
      ensures dayMap[k] in values
    {
      var i :| 0 <= i < |keys| && keys[i] == k;
    }
  }

  /** Sorting distinct buckets by date leaves the dates strictly
      increasing, since two buckets never share a day. */
  lemma {:induction false} SortedBuckets(values: seq<DayData>, s: seq<DayData>, dayMap: map<int, DayData>)
    requires Distinct(values) && BucketsOf(values, dayMap) && Covers(values, dayMap)
    requires multiset(s) == multiset(values) && SortedByDate(s)
    ensures BucketsOf(s, dayMap) && Covers(s, dayMap)
    ensures forall i, j :: 0 <= i < j < |s| ==> s[i].date < s[j].date
  {
    DistinctPermutation(values, s);
    forall i | 0 <= i < |s|
      ensures DayKey(s[i].date) in dayMap && dayMap[DayKey(s[i].date)] == s[i]
    {
      assert s[i] in multiset(values);
    }
    forall k | k in dayMap
      ensures dayMap[k] in s
    {
      assert dayMap[k] in multiset(s);
    }
    forall i, j | 0 <= i < j < |s|
      ensures s[i].date < s[j].date
    {
      assert s[i] != s[j];
      assert DayKey(s[i].date) != DayKey(s[j].date);
    }
  }

  /** Copy the buckets out of the map and sort them by date. */
  method OrderDays(dayMap: map<int, DayData>) returns (a: array<DayData>)
    requires WellKeyed(dayMap)
    ensures fresh(a) && a.Length == |dayMap|
    ensures BucketsOf(a[..], dayMap) && Covers(a[..], dayMap)
    ensures forall i, j :: 0 <= i < j < a.Length ==> a[i].date < a[j].date
  {
    var values := CollectDays(dayMap);
    a := new DayData[|values|](i requires 0 <= i < |values| => values[i]);
    assert a[..] == values;
    SortByDate(a);
    SortedBuckets(values, a[..], dayMap);
  }

  /** The longest `time.Duration` in whole seconds: a `Duration` counts
      nanoseconds in an int64, so `Sub` saturates at about 292 years. */
  const MaxElapsed := 9223372036

  /** `date.Sub(minDate)` in seconds, saturated at the largest and
      smallest `Duration`. */
  function Elapsed(date: int, minDate: int): (e: int)
    ensures -MaxElapsed <= e <= MaxElapsed
    ensures -MaxElapsed <= date - minDate <= MaxElapsed ==> e == date - minDate
    ensures date - minDate > MaxElapsed ==> e == MaxElapsed
    ensures date - minDate < -MaxElapsed ==> e == -MaxElapsed
  {
    var d := date - minDate;
    if d > MaxElapsed then MaxElapsed else if d < -MaxElapsed then -MaxElapsed else d
  }

  /** Whole days since `minDate`, truncated toward zero as Go's `int()`
      truncates the float `Hours() / 24`, plus one. */
  function DayNumber(date: int, minDate: int): int
  {
    var elapsed := Elapsed(date, minDate);
    (if elapsed >= 0 then elapsed / SecondsPerDay else -((-elapsed) / SecondsPerDay)) + 1
  }

  /** The numbering loop: set every day's `DayNumber` from its date. */
  method NumberDays(a: array<DayData>, minDate: int)
    modifies a
    ensures forall i :: 0 <= i < a.Length ==> a[i] == old(a[i]).(dayNumber := DayNumber(old(a[i]).date, minDate))
  {
    for i := 0 to a.Length
      invariant forall k :: 0 <= k < i ==> a[k] == old(a[k]).(dayNumber := DayNumber(old(a[k]).date, minDate))
      invariant forall k :: i <= k < a.Length ==> a[k] == old(a[k])
    {
      a[i] := a[i].(dayNumber := DayNumber(a[i].date, minDate));
    }
  }

  /** Day numbers never decrease along increasing dates. */
  lemma {:induction false} DayNumberMonotone(d1: int, d2: int, minDate: int)
    requires d1 <= d2
    ensures DayNumber(d1, minDate) <= DayNumber(d2, minDate)
  {
  }

  /** A day dated no earlier than the minimum gets a number of at least 1. */
  lemma {:induction false} DayNumberPositive(date: int, minDate: int)
    requires minDate <= date
    ensures DayNumber(date, minDate) >= 1
  {
  }

  /** Dates a day or more apart get different day numbers, as long as
      the later one is within a `Duration` of the minimum. */
  lemma {:induction false} DayNumberSeparates(d1: int, d2: int, minDate: int)
    requires minDate <= d1 && d1 + SecondsPerDay <= d2 && d2 - minDate <= MaxElapsed
    ensures DayNumber(d1, minDate) < DayNumber(d2, minDate)
  {
  }

  /** Past the saturation different days share a number: 118338 and
      118339 days after the minimum (from 1700-01-01 to 2024-01-01 and to
      2024-01-02) both get day 106752. */
  lemma SaturatedDaysCollide(minDate: int)
    ensures DayNumber(minDate + 118338 * SecondsPerDay, minDate) == 106752
    ensures DayNumber(minDate + 118339 * SecondsPerDay, minDate) == 106752
  {
  }

  // ---------------------------------------------------------------------
  // Steps 2 to 7: regression columns, statistics, forecast and history
  // ---------------------------------------------------------------------

  function Amounts(days: seq<DayData>): (ys: seq<real>)
    ensures |ys| == |days| && forall i :: 0 <= i < |days| ==> ys[i] == days[i].amount
  {
    if |days| == 0 then [] else Amounts(days[..|days| - 1]) + [days[|days| - 1].amount]
  }

  function TotalCount(days: seq<DayData>): int
  {
    if |days| == 0 then 0 else TotalCount(days[..|days| - 1]) + days[|days| - 1].count
  }

  /** The regressor (day numbers) and the observations (daily amounts). */
  method Columns(days: seq<DayData>) returns (x: array<real>, y: array<real>)
    ensures fresh(x) && fresh(y)
    ensures x[..] == DayXs(days) && y[..] == Amounts(days)
  {
    x := new real[|days|];
    y := new real[|days|];
    for i := 0 to |days|
      invariant forall k :: 0 <= k < i ==> x[k] == days[k].dayNumber as real
      invariant forall k :: 0 <= k < i ==> y[k] == days[k].amount
    {
      x[i] := days[i].dayNumber as real;
      y[i] := days[i].amount;
    }
    assert x[..] == DayXs(days);
    assert y[..] == Amounts(days);
  }

  /** "increasing" above +0.01 a day, "decreasing" below -0.01, otherwise
      "stable". */
  function TrendOf(weight: real): (trend: string)
    ensures trend == "increasing" <==> weight > TrendThreshold
    ensures trend == "decreasing" <==> weight < -TrendThreshold
    ensures trend == "stable" <==> -TrendThreshold <= weight <= TrendThreshold
  {
    if weight > TrendThreshold then "increasing"
    else if weight < -TrendThreshold then "decreasing"
    else "stable"
  }

  /** One forecast entry; `date` is the day key of the forecast day. */
  datatype Prediction = Prediction(day: int, date: int, predictedAmount: real)

  /** The forecast for the `i`-th day (from 0) after the last one. */
  function ForecastPoint(line: Line, lastDayNumber: int, lastDate: int, i: nat): Prediction
  {
    var day := lastDayNumber + i + 1;
    Prediction(day, DayKey(lastDate + (i + 1) * SecondsPerDay), line.Predict(day as real))
  }

  /** The forecast loop: `horizon` days after the last one. */
  method Forecast(model: OlsModel, lastDayNumber: int, lastDate: int, horizon: nat) returns (predictions: seq<Prediction>)
    ensures |predictions| == horizon
    ensures forall i :: 0 <= i < horizon ==> predictions[i] == ForecastPoint(model.Snapshot(), lastDayNumber, lastDate, i)
  {
    var futurePredictions := new Prediction[horizon];
    for i := 0 to horizon
      invariant forall k :: 0 <= k < i ==> futurePredictions[k] == ForecastPoint(model.Snapshot(), lastDayNumber, lastDate, k)
    {
      var futureDayNumber := lastDayNumber + i + 1;
      var futureDate := lastDate + (i + 1) * SecondsPerDay;
      futurePredictions[i] := Prediction(futureDayNumber, DayKey(futureDate), model.Predict(futureDayNumber as real));
    }
    predictions := futurePredictions[..];
  }

  /** Adding whole days moves the day key by as many days. */
  lemma {:induction false} DayKeyShift(t: int, n: int)
    ensures DayKey(t + n * SecondsPerDay) == DayKey(t) + n
  {
  }

  /** The statistics loop: totals and the extremes of the daily amounts. */
  method DailyStats(days: seq<DayData>, y: seq<real>)
    returns (totalAmount: real, totalCount: int, minAmount: real, maxAmount: real)
    requires |days| > 0 && y == Amounts(days)
    ensures totalAmount == Sum(y) && totalCount == TotalCount(days)
    ensures minAmount == Min(y) && maxAmount == Max(y)
  {
    totalAmount, totalCount := 0.0, 0;
    minAmount, maxAmount := y[0], y[0];
    for i := 0 to |days|
      invariant totalAmount == Sum(y[..i]) && totalCount == TotalCount(days[..i])
      invariant i == 0 ==> minAmount == y[0] && maxAmount == y[0]
      invariant i > 0 ==> minAmount == Min(y[..i]) && maxAmount == Max(y[..i])
    {
      SumExtend(y, i);
      assert days[..i + 1][..i] == days[..i];
      assert y[..i + 1][..i] == y[..i];
      totalAmount := totalAmount + days[i].amount;
      totalCount := totalCount + days[i].count;
      if y[i] < minAmount {
        minAmount := y[i];
      }
      if y[i] > maxAmount {
        maxAmount := y[i];
      }
    }
    assert y[..|days|] == y && days[..|days|] == days;
  }

  /** One history entry; `date` is the day key of the bucket. */
  datatype HistoricalPoint = HistoricalPoint(day: int, date: int, actualAmount: real, predictedAmount: real,
                                             residual: real, transactionCount: int)

  /** A day with the line's prediction for it and the residual. */
  function HistoryPoint(line: Line, d: DayData): HistoricalPoint
  {
    var predicted := line.Predict(d.dayNumber as real);
    HistoricalPoint(d.dayNumber, DayKey(d.date), d.amount, predicted, d.amount - predicted, d.count)
  }

  /** The history loop: each day with the model's prediction and the
      residual. */
  method History(model: OlsModel, days: seq<DayData>) returns (historical: seq<HistoricalPoint>)
    ensures |historical| == |days|
    ensures forall i :: 0 <= i < |days| ==> historical[i] == HistoryPoint(model.Snapshot(), days[i])
  {
    var points := new HistoricalPoint[|days|];
    for i := 0 to |days|
      invariant forall k :: 0 <= k < i ==> points[k] == HistoryPoint(model.Snapshot(), days[k])
    {
      var predicted := model.Predict(days[i].dayNumber as real);
      var residual := days[i].amount - predicted;
      points[i] := HistoricalPoint(days[i].dayNumber, DayKey(days[i].date), days[i].amount, predicted, residual, days[i].count);
    }
    historical := points[..];
  }

  // ---------------------------------------------------------------------
  // Step 8: the response, and what it reports
  // ---------------------------------------------------------------------

  datatype ModelSummary = ModelSummary(weight: real, bias: real, rSquared: real, mse: real)

  datatype Insights = Insights(trend: string, totalDays: nat, totalAmount: real, totalTransactions: int,
                               avgAmountPerDay: real, avgTransactionsPerDay: real,
                               minDailyAmount: real, maxDailyAmount: real, startDate: int, endDate: int)

  datatype Analysis = Analysis(model: ModelSummary, insights: Insights,
                               predictions: seq<Prediction>, historical: seq<HistoricalPoint>)

  /** A non-positive horizon falls back to a week. */
  function Horizon(days: int): nat
  {
    if days <= 0 then DefaultHorizon else days
  }

  function HistoryXs(hs: seq<HistoricalPoint>): seq<real>
  {
    seq(|hs|, i requires 0 <= i < |hs| => hs[i].day as real)
  }

  function HistoryYs(hs: seq<HistoricalPoint>): seq<real>
  {
    seq(|hs|, i requires 0 <= i < |hs| => hs[i].actualAmount)
  }

  /** One history point per day bucket, each with the bucket's amount and
      count. */
  ghost predicate HistoryMatchesBuckets(hs: seq<HistoricalPoint>, m: map<int, DayData>)
  {
    |hs| == |m| &&
    (forall i :: 0 <= i < |hs| ==>
       hs[i].date in m && hs[i].actualAmount == m[hs[i].date].amount && hs[i].transactionCount == m[hs[i].date].count) &&
    (forall k :: k in m ==> exists i :: 0 <= i < |hs| && hs[i].date == k)
  }

  /** Calendar days strictly increase along the history; day numbers never
      decrease. */
  ghost predicate HistoryOrdered(hs: seq<HistoricalPoint>)
  {
    forall i, j :: 0 <= i < j < |hs| ==> hs[i].date < hs[j].date && hs[i].day <= hs[j].day
  }

  /** Each point carries the line's prediction and the residual. */
  ghost predicate HistoryPredicted(hs: seq<HistoricalPoint>, line: Line)
  {
    forall i :: 0 <= i < |hs| ==>
      hs[i].predictedAmount == line.Predict(hs[i].day as real) &&
      hs[i].residual == hs[i].actualAmount - hs[i].predictedAmount
  }

  /** The history: one point per day bucket of the accepted entries, in
      date order, numbered from 1 unless a record sat at the zero instant,
      with the line's predictions. */
  ghost predicate ReportsHistory(hs: seq<HistoricalPoint>, es: seq<Entry>, line: Line)
  {
    HistoryMatchesBuckets(hs, DayMapOf(es)) &&
    HistoryOrdered(hs) &&
    (NoZeroDates(es) ==> forall i :: 0 <= i < |hs| ==> hs[i].day >= 1) &&
    HistoryPredicted(hs, line)
  }

  /** The forecast continues day numbers and calendar days after the last
      historical day, predicting with the line. */
  ghost predicate ReportsForecast(ps: seq<Prediction>, last: HistoricalPoint, line: Line, horizon: nat)
  {
    |ps| == horizon &&
    forall i :: 0 <= i < horizon ==>
      ps[i].day == last.day + i + 1 && ps[i].date == last.date + i + 1 &&
      ps[i].predictedAmount == line.Predict(ps[i].day as real)
  }

  /** The model is the least-squares line of the history, with its fit
      statistics. */
  ghost predicate ReportsModel(s: ModelSummary, hs: seq<HistoricalPoint>)
  {
    var line := Line(s.weight, s.bias);
    FitLine(HistoryXs(hs), HistoryYs(hs)) == Ok(line) &&
    s.rSquared == RSquared(line, HistoryXs(hs), HistoryYs(hs)) &&
    s.mse == MeanSquaredError(line, HistoryXs(hs), HistoryYs(hs)) &&
    0.0 <= s.rSquared <= 1.0 && s.mse >= 0.0
  }

  /** Totals and averages over the days, with every accepted transaction
      counted once. */
  ghost predicate InsightsTotals(ins: Insights, hs: seq<HistoricalPoint>, es: seq<Entry>, weight: real)
    requires |hs| > 0
  {
    ins.trend == TrendOf(weight) &&
    ins.totalDays == |hs| &&
    ins.totalTransactions == |es| &&
    ins.totalAmount == Sum(HistoryYs(hs)) &&
    ins.avgAmountPerDay == ins.totalAmount / |hs| as real &&
    ins.avgTransactionsPerDay == |es| as real / |hs| as real
  }

  /** The extremes of the daily amounts bracket the average, and the date
      range spans the history. */
  ghost predicate InsightsRange(ins: Insights, hs: seq<HistoricalPoint>)
    requires |hs| > 0
  {
    var ys := HistoryYs(hs);
    ins.minDailyAmount == Min(ys) && ins.maxDailyAmount == Max(ys) &&
    ins.minDailyAmount <= ins.avgAmountPerDay <= ins.maxDailyAmount &&
    ins.startDate == hs[0].date && ins.endDate == hs[|hs| - 1].date
  }

  ghost predicate ReportsInsights(ins: Insights, hs: seq<HistoricalPoint>, es: seq<Entry>, weight: real)
    requires |hs| > 0
  {
    InsightsTotals(ins, hs, es, weight) && InsightsRange(ins, hs)
  }

  ghost predicate Reports(a: Analysis, es: seq<Entry>, horizon: nat)
  {
    var line := Line(a.model.weight, a.model.bias);
    |a.historical| > 0 &&
    ReportsHistory(a.historical, es, line) &&
    ReportsModel(a.model, a.historical) &&
    ReportsForecast(a.predictions, a.historical[|a.historical| - 1], line, horizon) &&
    ReportsInsights(a.insights, a.historical, es, a.model.weight)
  }

  /** The date-ordered day slice of the buckets `m`: one element per
      bucket, keys strictly increasing, day numbers never decreasing. */
  ghost predicate DaysOfMap(days: seq<DayData>, m: map<int, DayData>)
  {
    (forall i :: 0 <= i < |days| ==>
       DayKey(days[i].date) in m && m[DayKey(days[i].date)].date == days[i].date &&
       m[DayKey(days[i].date)].amount == days[i].amount && m[DayKey(days[i].date)].count == days[i].count) &&
    (forall k :: k in m ==> exists i :: 0 <= i < |days| && DayKey(days[i].date) == k) &&
    (forall i, j :: 0 <= i < j < |days| ==>
       DayKey(days[i].date) < DayKey(days[j].date) && days[i].dayNumber <= days[j].dayNumber)
  }

  /** After numbering, the sorted buckets still carry their map entries,
      their day keys strictly increase and their day numbers never
      decrease. */
  lemma {:induction false} NumberedBuckets(sorted: seq<DayData>, days: seq<DayData>, m: map<int, DayData>, minDate: int)
    requires WellKeyed(m) && BucketsOf(sorted, m) && Covers(sorted, m)
    requires forall i, j :: 0 <= i < j < |sorted| ==> sorted[i].date < sorted[j].date
    requires |days| == |sorted|
    requires forall i :: 0 <= i < |days| ==> days[i] == sorted[i].(dayNumber := DayNumber(sorted[i].date, minDate))
    ensures DaysOfMap(days, m) && NumberedBy(days, minDate)
  {
    forall k | k in m
      ensures exists i :: 0 <= i < |days| && DayKey(days[i].date) == k
    {
      var i :| 0 <= i < |sorted| && sorted[i] == m[k];
      assert DayKey(days[i].date) == k;
    }
    forall i, j | 0 <= i < j < |days|
      ensures DayKey(days[i].date) < DayKey(days[j].date) && days[i].dayNumber <= days[j].dayNumber
    {
      assert sorted[i] != sorted[j];
      assert DayKey(sorted[i].date) != DayKey(sorted[j].date);
      DayNumberMonotone(sorted[i].date, sorted[j].date, minDate);
    }
  }

  /** The day key a bucket is filed under. */
  function BucketKey(d: DayData): int
  {
    DayKey(d.date)
  }

  lemma {:induction false} TotalCountOver(days: seq<DayData>, keys: multiset<int>)
    requires forall i :: 0 <= i < |days| ==> days[i].count == keys[DayKey(days[i].date)]
    ensures TotalCount(days) == CountOver(keys, MapSeq(days, BucketKey))
  {
    if |days| > 0 {
      var init := days[..|days| - 1];
      TotalCountOver(init, keys);
      assert MapSeq(days, BucketKey)[..|days| - 1] == MapSeq(init, BucketKey);
    }
  }

  /** Summing the counts of all the buckets, each once, counts every
      accepted transaction exactly once. */
  lemma {:induction false} TotalTransactions(es: seq<Entry>, days: seq<DayData>)
    requires DaysOfMap(days, DayMapOf(es))
    ensures TotalCount(days) == |es|
  {
    DayMapCounts(es);
    DayMapKeys(es);
    TotalCountOver(days, multiset(KeysOf(es)));
    var ks := MapSeq(days, BucketKey);
    forall i | 0 <= i < |KeysOf(es)|
      ensures KeysOf(es)[i] in ks
    {
      var k := KeysOf(es)[i];
      assert k in DayMapOf(es);
      var j :| 0 <= j < |days| && DayKey(days[j].date) == k;
      assert ks[j] == k;
    }
    assert Distinct(ks);
    CountPartition(KeysOf(es), ks);
  }

  /** Every numbered day is dated no earlier than the tracked minimum, so
      numbers start at 1, unless a record sat at the zero instant. */
  lemma {:induction false} NumbersPositive(es: seq<Entry>, days: seq<DayData>)
    requires NoZeroDates(es) && NumberedFrom(days, es)
    ensures forall i :: 0 <= i < |days| ==> days[i].dayNumber >= 1
  {
    DayMapKeys(es);
    forall i | 0 <= i < |days|
      ensures days[i].dayNumber >= 1
    {
      var k := DayKey(days[i].date);
      assert days[i].date in DatesOf(es);
      var j :| 0 <= j < |es| && DatesOf(es)[j] == days[i].date;
      MinDateIsEarliest(es);
      DayNumberPositive(days[i].date, MinDateOf(es));
    }
  }

  /** Every day numbered from `minDate`. */
  ghost predicate NumberedBy(days: seq<DayData>, minDate: int)
  {
    forall i :: 0 <= i < |days| ==> days[i].dayNumber == DayNumber(days[i].date, minDate)
  }

  /** The numbered day slice built from the accepted entries `es`. */
  ghost predicate NumberedFrom(days: seq<DayData>, es: seq<Entry>)
  {
    DaysOfMap(days, DayMapOf(es)) && NumberedBy(days, MinDateOf(es))
  }

  /** One day per bucket: the slice is as long as the map is large. */
  lemma {:induction false} HistorySize(days: seq<DayData>, m: map<int, DayData>)
    requires DaysOfMap(days, m)
    ensures |days| == |m|
  {
    var ks := MapSeq(days, BucketKey);
    var keys := set i | 0 <= i < |ks| :: ks[i];
    assert Distinct(ks);
    assert m.Keys == keys by {
      forall k | k in m.Keys
        ensures k in keys
      {
        var i :| 0 <= i < |days| && DayKey(days[i].date) == k;
        assert ks[i] == k;
      }
    }
    DistinctSetSize(ks);
  }

  lemma {:induction false} HistoryMatches(line: Line, days: seq<DayData>, hs: seq<HistoricalPoint>, m: map<int, DayData>)
    requires DaysOfMap(days, m)
    requires |hs| == |days|
    requires forall i :: 0 <= i < |days| ==> hs[i] == HistoryPoint(line, days[i])
    ensures HistoryMatchesBuckets(hs, m)
  {
    HistorySize(days, m);
    forall k | k in m
      ensures exists i :: 0 <= i < |hs| && hs[i].date == k
    {
      var i :| 0 <= i < |days| && DayKey(days[i].date) == k;
      assert hs[i].date == k;
    }
  }

  lemma {:induction false} HistoryReported(line: Line, days: seq<DayData>, hs: seq<HistoricalPoint>, es: seq<Entry>)
    requires NumberedFrom(days, es)
    requires |hs| == |days|
    requires forall i :: 0 <= i < |days| ==> hs[i] == HistoryPoint(line, days[i])
    ensures ReportsHistory(hs, es, line)
  {
    HistoryMatches(line, days, hs, DayMapOf(es));
    if NoZeroDates(es) {
      NumbersPositive(es, days);
    }
  }

  lemma {:induction false} ModelReported(a: Analysis, days: seq<DayData>, horizon: nat)
    requires |days| > 0 && Describes(a, days, horizon)
    ensures ReportsModel(a.model, a.historical)
  {
    var hs := a.historical;
    assert HistoryXs(hs) == DayXs(days);
    assert HistoryYs(hs) == Amounts(days);
    FittedRSquaredBetweenZeroAndOne(DayXs(days), Amounts(days));
  }

  lemma {:induction false} ForecastReported(a: Analysis, days: seq<DayData>, horizon: nat)
    requires |days| > 0 && Describes(a, days, horizon)
    ensures ReportsForecast(a.predictions, a.historical[|a.historical| - 1], Line(a.model.weight, a.model.bias), horizon)
  {
    var last := days[|days| - 1];
    assert a.historical[|a.historical| - 1] == HistoryPoint(Line(a.model.weight, a.model.bias), last);
    forall i | 0 <= i < horizon
      ensures a.predictions[i].date == DayKey(last.date) + i + 1
    {
      DayKeyShift(last.date, i + 1);
    }
  }

  lemma {:induction false} TotalsReported(a: Analysis, days: seq<DayData>, es: seq<Entry>, horizon: nat)
    requires |days| > 0 && Describes(a, days, horizon) && TotalCount(days) == |es|
    ensures InsightsTotals(a.insights, a.historical, es, a.model.weight)
  {
    assert HistoryYs(a.historical) == Amounts(days);
  }

  lemma {:induction false} RangeReported(a: Analysis, days: seq<DayData>, horizon: nat)
    requires |days| > 0 && Describes(a, days, horizon)
    ensures InsightsRange(a.insights, a.historical)
  {
    var hs := a.historical;
    assert HistoryYs(hs) == Amounts(days);
    assert hs[0] == HistoryPoint(Line(a.model.weight, a.model.bias), days[0]);
    assert hs[|hs| - 1] == HistoryPoint(Line(a.model.weight, a.model.bias), days[|days| - 1]);
    MeanBetweenMinMax(Amounts(days));
  }

  /** What the response holds, day by day: the fitted line with its
      statistics, the forecast, the history and the insights. */
  ghost predicate Describes(a: Analysis, days: seq<DayData>, horizon: nat)
    requires |days| > 0
  {
    var line := Line(a.model.weight, a.model.bias);
    var last := days[|days| - 1];
    var ys := Amounts(days);
    FitLine(DayXs(days), ys) == Ok(line) &&
    a.model.rSquared == RSquared(line, DayXs(days), ys) &&
    a.model.mse == MeanSquaredError(line, DayXs(days), ys) && a.model.mse >= 0.0 &&
    |a.predictions| == horizon &&
    (forall i :: 0 <= i < horizon ==> a.predictions[i] == ForecastPoint(line, last.dayNumber, last.date, i)) &&
    |a.historical| == |days| &&
    (forall i :: 0 <= i < |days| ==> a.historical[i] == HistoryPoint(line, days[i])) &&
    a.insights == Insights(TrendOf(a.model.weight), |days|, Sum(ys), TotalCount(days),
                           Sum(ys) / |days| as real, TotalCount(days) as real / |days| as real,
                           Min(ys), Max(ys), DayKey(days[0].date), DayKey(last.date))
  }

  /** A response describing the numbered day slice of `es` reports on
      `es`. */
  lemma {:induction false} DescribedReports(a: Analysis, days: seq<DayData>, es: seq<Entry>, horizon: nat)
    requires |days| > 0 && NumberedFrom(days, es) && Describes(a, days, horizon)
    ensures Reports(a, es, horizon)
  {
    HistoryReported(Line(a.model.weight, a.model.bias), days, a.historical, es);
    ModelReported(a, days, horizon);
    ForecastReported(a, days, horizon);
    TotalTransactions(es, days);
    TotalsReported(a, days, es, horizon);
    RangeReported(a, days, horizon);
  }

  /** Steps 2 to 8 on the numbered day slice: fit the line and, when the fit
      succeeds, build the response. */
  method Respond(days: seq<DayData>, horizon: nat) returns (result: Result<Analysis>)
    requires |days| > 0
    ensures result.Err? <==> FitLine(DayXs(days), Amounts(days)).Err?
    ensures result.Err? ==> result == Err(FitFailedPrefix + TooUniform)
    ensures result.Ok? ==> Describes(result.value, days, horizon)
  {
    var x, y := Columns(days);
    var model := new OlsModel();
    var err := model.Fit(x[..], y[..]);
    if err.Some? {
      return Err(FitFailedPrefix + err.value);
    }
    var r2 := model.CalculateR2(x[..], y[..]);
    var mse := model.CalculateMse(x[..], y[..]);
    var trend := TrendOf(model.weight);
    var last := days[|days| - 1];
    var predictions := Forecast(model, last.dayNumber, last.date, horizon);
    var totalAmount, totalCount, minAmount, maxAmount := DailyStats(days, y[..]);
    var n := |days| as real;
    var historical := History(model, days);
    var summary := ModelSummary(model.weight, model.bias, r2, mse);
    var insights := Insights(trend, |days|, totalAmount, totalCount, totalAmount / n, totalCount as real / n,
                             minAmount, maxAmount, DayKey(days[0].date), DayKey(last.date));
    assert x[..][..|y[..]|] == x[..];
    result := Ok(Analysis(summary, insights, predictions, historical));
  }

  lemma ErrorsDiffer()
    ensures NoTransactions != NoValidTransactions
    ensures FitFailedPrefix + TooUniform != NoTransactions && FitFailedPrefix + TooUniform != NoValidTransactions
  {
    assert NoTransactions[3] != NoValidTransactions[3];
    assert (FitFailedPrefix + TooUniform)[0] != NoTransactions[0];
    assert (FitFailedPrefix + TooUniform)[0] != NoValidTransactions[0];
  }

  /** Every accepted entry opens or joins a bucket. */
  lemma {:induction false} SomeBucket(es: seq<Entry>)
    requires |es| > 0
    ensures |DayMapOf(es)| > 0
  {
    DayMapKeys(es);
    assert KeysOf(es)[0] in DayMapOf(es);
  }

  /** A single calendar day cannot be fitted. */
  lemma {:induction false} SingleDayFails(days: seq<DayData>, es: seq<Entry>)
    requires |days| > 0 && DaysOfMap(days, DayMapOf(es)) && |DayMapOf(es)| == 1
    ensures FitLine(DayXs(days), Amounts(days)) == Err(TooUniform)
  {
    HistorySize(days, DayMapOf(es));
    SameDayFails(days, Amounts(days));
  }

  /** Two buckets dated a day or more apart can always be fitted, unless a
      record sat at the zero instant. */
  lemma {:induction false} SpreadDaysFit(days: seq<DayData>, es: seq<Entry>)
    requires NumberedFrom(days, es) && NoZeroDates(es) && WithinDuration(es) && SpreadOverDays(DayMapOf(es))
    ensures FitLine(DayXs(days), Amounts(days)).Ok?
  {
    var m := DayMapOf(es);
    var k1, k2 :| k1 in m && k2 in m && m[k1].date + SecondsPerDay <= m[k2].date;
    var i :| 0 <= i < |days| && DayKey(days[i].date) == k1;
    var j :| 0 <= j < |days| && DayKey(days[j].date) == k2;
    MinDateBelowDays(days, es, i);
    DaysWithinDuration(days, es, j);
    SeparateDaysFit(days, MinDateOf(es), i, j);
  }

  /** A bucket is dated by one of the records, so it inherits their span. */
  lemma {:induction false} DaysWithinDuration(days: seq<DayData>, es: seq<Entry>, j: nat)
    requires DaysOfMap(days, DayMapOf(es)) && WithinDuration(es) && j < |days|
    ensures days[j].date - MinDateOf(es) <= MaxElapsed
  {
    DayMapKeys(es);
    assert days[j].date in DatesOf(es);
    var t :| 0 <= t < |es| && DatesOf(es)[t] == days[j].date;
  }

  /** Every accepted record lies within a `Duration` (about 292 years) of
      the tracked minimum, so `Sub` does not saturate. */
  predicate WithinDuration(es: seq<Entry>)
  {
    forall i :: 0 <= i < |es| ==> es[i].date - MinDateOf(es) <= MaxElapsed
  }

  lemma {:induction false} MinDateBelowDays(days: seq<DayData>, es: seq<Entry>, i: nat)
    requires DaysOfMap(days, DayMapOf(es)) && NoZeroDates(es) && i < |days|
    ensures MinDateOf(es) <= days[i].date
  {
    DayMapKeys(es);
    assert days[i].date in DatesOf(es);
    MinDateIsEarliest(es);
  }

  lemma {:induction false} SeparateDaysFit(days: seq<DayData>, minDate: int, i: nat, j: nat)
    requires NumberedBy(days, minDate) && i < |days| && j < |days|
    requires minDate <= days[i].date && days[i].date + SecondsPerDay <= days[j].date
    requires days[j].date - minDate <= MaxElapsed
    ensures FitLine(DayXs(days), Amounts(days)).Ok?
  {
    DayNumberSeparates(days[i].date, days[j].date, minDate);
    DistinctDaysFit(days, Amounts(days), i, j);
  }

  /** Two buckets dated at least a day apart. */
  ghost predicate SpreadOverDays(m: map<int, DayData>)
  {
    exists k1, k2 :: k1 in m && k2 in m && m[k1].date + SecondsPerDay <= m[k2].date
  }

  /** Copy out, sort and number the buckets. */
  method NumberedSlice(dayMap: map<int, DayData>, minDate: int) returns (daySlice: seq<DayData>)
    requires WellKeyed(dayMap)
    ensures |daySlice| == |dayMap|
    ensures DaysOfMap(daySlice, dayMap) && NumberedBy(daySlice, minDate)
  {
    var a := OrderDays(dayMap);
    ghost var sorted := a[..];
    NumberDays(a, minDate);
    daySlice := a[..];
    NumberedBuckets(sorted, daySlice, dayMap, minDate);
  }

  /** Everything after the parsing loop, on a non-empty day map. */
  method AnalyseDays(dayMap: map<int, DayData>, minDate: int, horizon: nat, ghost es: seq<Entry>)
    returns (result: Result<Analysis>)
    requires dayMap == DayMapOf(es) && minDate == MinDateOf(es) && |dayMap| > 0
    ensures result.Err? ==> result == Err(FitFailedPrefix + TooUniform)
    ensures |dayMap| == 1 ==> result.Err?
    ensures NoZeroDates(es) && WithinDuration(es) && SpreadOverDays(dayMap) ==> result.Ok?
    ensures result.Ok? ==> Reports(result.value, es, horizon)
  {
    DayMapKeys(es);
    var daySlice := NumberedSlice(dayMap, minDate);
    HistorySize(daySlice, dayMap);
    result := AnalyseSlice(daySlice, horizon, es);
  }

  /** Fit and report on the numbered day slice of `es`. */
  method AnalyseSlice(daySlice: seq<DayData>, horizon: nat, ghost es: seq<Entry>) returns (result: Result<Analysis>)
    requires |daySlice| > 0 && NumberedFrom(daySlice, es)
    ensures result.Err? ==> result == Err(FitFailedPrefix + TooUniform)
    ensures |DayMapOf(es)| == 1 ==> result.Err?
    ensures NoZeroDates(es) && WithinDuration(es) && SpreadOverDays(DayMapOf(es)) ==> result.Ok?
    ensures result.Ok? ==> Reports(result.value, es, horizon)
  {
    if |DayMapOf(es)| == 1 {
      SingleDayFails(daySlice, es);
    }
    if NoZeroDates(es) && WithinDuration(es) && SpreadOverDays(DayMapOf(es)) {
      SpreadDaysFit(daySlice, es);
    }
    result := Respond(daySlice, horizon);
    if result.Ok? {
      DescribedReports(result.value, daySlice, es, horizon);
    }
  }

  /** The analysis: aggregate by day, number the days, fit the line, then
      report its statistics, a forecast of `Horizon(days)` days and the
      history. */
  method AnalyseCashFlow(txns: seq<Record>, days: int, layouts: seq<Parser>) returns (result: Result<Analysis>)
    ensures result == Err(NoTransactions) <==> |txns| == 0
    ensures result == Err(NoValidTransactions) <==> |txns| > 0 && |Accepted(layouts, txns)| == 0
    ensures result.Err? ==> result.error in [NoTransactions, NoValidTransactions, FitFailedPrefix + TooUniform]
    ensures |txns| > 0 && |DayMapOf(Accepted(layouts, txns))| == 1 ==> result == Err(FitFailedPrefix + TooUniform)
    ensures |txns| > 0 && NoZeroDates(Accepted(layouts, txns)) && WithinDuration(Accepted(layouts, txns))
            && SpreadOverDays(DayMapOf(Accepted(layouts, txns)))
            ==> result.Ok?
    ensures result.Ok? ==> Reports(result.value, Accepted(layouts, txns), Horizon(days))
  {
    ErrorsDiffer();
    if |txns| == 0 {
      return Err(NoTransactions);
    }
    var horizon := Horizon(days);
    var dayMap, minDate := Aggregate(txns, layouts);
    ghost var es := Accepted(layouts, txns);
    if |es| > 0 {
      SomeBucket(es);
    }
    if |dayMap| == 0 {
      return Err(NoValidTransactions);
    }
    result := AnalyseDays(dayMap, minDate, horizon, es);
  }
}
