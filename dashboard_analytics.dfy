/**
 * The analytics panel: status counts with the completion rate, and the
 * six-month bar chart that `getMonthlyData` fills in one pass over the
 * sessions.  The current month index (`new Date().getMonth()`, 0..11) and the
 * month of each start time (`getMonth()` in the viewer's time zone) are
 * parameters.
 */
module DashboardAnalytics {
  import opened Wrappers
  import opened Seqs
  import opened Sessions

  datatype Stats = Stats(completed: nat, upcoming: nat, pending: nat, total: nat, completionRate: real)

  function CountWhere(ss: seq<Session>, p: Session -> bool): (n: nat)
    ensures n == |IndicesWhere(ss, p)|
    ensures n <= |ss|
  {
    FilterLength(ss, p);
    |Filter(ss, p)|
  }

  /** `total ? completed / total * 100 : 0`, kept exact. */
  function CompletionRate(completed: nat, total: nat): (r: real)
    ensures total == 0 ==> r == 0.0
    ensures total > 0 ==> r == completed as real * 100.0 / total as real
    ensures completed <= total ==> 0.0 <= r <= 100.0
  {
    if total > 0 then completed as real / total as real * 100.0 else 0.0
  }

  /** The `stats` memo: counts by status, upcoming as approved and in the future, and the completion rate in percent. */
  function ComputeStats(ss: seq<Session>, now: int): (st: Stats)
    ensures st.total == |ss|
    ensures st.completed == |set i | 0 <= i < |ss| && ss[i].status == Completed|
    ensures st.upcoming == |set i | 0 <= i < |ss| && IsUpcoming(ss[i], now)|
    ensures st.pending == |set i | 0 <= i < |ss| && ss[i].status == Pending|
    ensures st.total == 0 ==> st.completionRate == 0.0
    ensures st.total > 0 ==> st.completionRate == st.completed as real * 100.0 / st.total as real
  {
    var completed := CountWhere(ss, IsCompleted);
    var upcoming := CountWhere(ss, s => IsUpcoming(s, now));
    var pending := CountWhere(ss, IsPending);
    assert IndicesWhere(ss, IsCompleted) == set i | 0 <= i < |ss| && ss[i].status == Completed;
    assert IndicesWhere(ss, s => IsUpcoming(s, now)) == set i | 0 <= i < |ss| && IsUpcoming(ss[i], now);
    assert IndicesWhere(ss, IsPending) == set i | 0 <= i < |ss| && ss[i].status == Pending;
    var total := |ss|;
    Stats(completed, upcoming, pending, total, CompletionRate(completed, total))
  }

  /** A session in at least one of the three counted buckets. */
  predicate InSomeBucket(s: Session, now: int) {
    s.status == Completed || IsUpcoming(s, now) || s.status == Pending
  }

  /** The three counted buckets are disjoint, so together they never exceed the total, and the rate stays within 0..100. */
  lemma StatsBounded(ss: seq<Session>, now: int)
    ensures var st := ComputeStats(ss, now);
            st.completed + st.upcoming + st.pending <= st.total &&
            0.0 <= st.completionRate <= 100.0
  {
    var c := set i | 0 <= i < |ss| && ss[i].status == Completed;
    var u := set i | 0 <= i < |ss| && IsUpcoming(ss[i], now);
    var p := set i | 0 <= i < |ss| && ss[i].status == Pending;
    BucketsCoverSome(ss, now);
    DisjointSizes(c, u, p);
    FilterLength(ss, (s: Session) => InSomeBucket(s, now));
  }

  /** The three buckets' positions are exactly the positions of sessions in some bucket. */
  lemma BucketsCoverSome(ss: seq<Session>, now: int)
    ensures (set i | 0 <= i < |ss| && ss[i].status == Completed) +
            (set i | 0 <= i < |ss| && IsUpcoming(ss[i], now)) +
            (set i | 0 <= i < |ss| && ss[i].status == Pending) ==
            IndicesWhere(ss, (s: Session) => InSomeBucket(s, now))
  {
  }

  /** Disjoint position sets: the size of the union is the sum of the sizes. */
  lemma DisjointSizes(c: set<int>, u: set<int>, p: set<int>)
    requires c * u == {} && c * p == {} && u * p == {}
    ensures |c + u + p| == |c| + |u| + |p|
  {
    assert |c + u| == |c| + |u|;
    assert (c + u) * p == {};
  }

  /** The month abbreviations the chart labels come from. */
  const MonthNames: seq<string> := ["Jan", "Feb", "Mar", "Apr", "May", "Jun", "Jul", "Aug", "Sep", "Oct", "Nov", "Dec"]

  /** `months[m]`: a name for 0..11, `undefined` otherwise. */
  function MonthName(m: int): (r: Option<string>)
    ensures r.Some? <==> 0 <= m < 12
  {
    if 0 <= m < 12 then Some(MonthNames[m]) else None
  }

  /** `months.slice(currentMonth - 5, currentMonth + 1)`. */
  function TrendLabels(currentMonth: int): (labels: seq<string>)
    ensures |labels| <= 6
    ensures forall x :: x in labels ==> x in MonthNames
    ensures 5 <= currentMonth < 12 ==> labels == MonthNames[currentMonth - 5..currentMonth + 1]
  {
    Slice(MonthNames, currentMonth - 5, currentMonth + 1)
  }

  /** From June on the labels are the six months ending with the current one; before June the negative start of `slice` leaves none. */
  lemma TrendLabelsWindow(currentMonth: int)
    requires 0 <= currentMonth < 12
    ensures currentMonth >= 5 ==> TrendLabels(currentMonth) == MonthNames[currentMonth - 5..currentMonth + 1]
    ensures currentMonth >= 5 ==> |TrendLabels(currentMonth)| == 6
    ensures currentMonth < 5 ==> TrendLabels(currentMonth) == []
  {
    if currentMonth < 5 {
      assert SliceBound(12, currentMonth - 5) == currentMonth + 7;
    }
  }

  /** `last6Months.indexOf(months[sessionMonth])`: the chart column of a session, or -1. */
  function Slot(labels: seq<string>, month: int): (k: int)
    ensures -1 <= k < |labels|
    ensures k != -1 ==> 0 <= month < 12 && labels[k] == MonthNames[month]
    ensures k != -1 ==> forall j :: 0 <= j < k ==> labels[j] != labels[k]
    ensures k == -1 <==> !(0 <= month < 12) || MonthNames[month] !in labels
  {
    match MonthName(month)
    case None => -1
    case Some(name) => IndexOf(labels, name)
  }

  /** The column of a session is its month's distance from the window's first month, when the window exists and holds that month. */
  lemma SlotInWindow(currentMonth: int, month: int)
    requires 0 <= currentMonth < 12
    ensures var k := Slot(TrendLabels(currentMonth), month);
            -1 <= k < 6 &&
            (k != -1 <==> currentMonth >= 5 && currentMonth - 5 <= month <= currentMonth) &&
            (k != -1 ==> k == month - (currentMonth - 5))
  {
    TrendLabelsWindow(currentMonth);
    var labels := TrendLabels(currentMonth);
    if 0 <= month < 12 && currentMonth >= 5 {
      var first := currentMonth - 5;
      var k := IndexOf(labels, MonthNames[month]);
      assert forall j :: 0 <= j < 6 ==> labels[j] == MonthNames[first + j];
      MonthNamesDistinct();
      if k != -1 {
        assert MonthNames[first + k] == MonthNames[month];
      }
      if first <= month <= currentMonth {
        assert labels[month - first] == MonthNames[month];
      }
    }
  }

  /** No two months share an abbreviation. */
  lemma MonthNamesDistinct()
    ensures forall i, j :: 0 <= i < 12 && 0 <= j < 12 && MonthNames[i] == MonthNames[j] ==> i == j
  {
    forall i, j | 0 <= i < 12 && 0 <= j < 12 && MonthNames[i] == MonthNames[j] ensures i == j {
      assert MonthNames[i][0] == MonthNames[j][0] && MonthNames[i][2] == MonthNames[j][2];
    }
  }

  /** The counter a session may bump: completed first, otherwise approved and still in the future. */
  datatype Series = CompletedSeries | UpcomingSeries

  predicate CountsIn(s: Session, series: Series, now: int) {
    match series
    case CompletedSeries => s.status == Completed
    case UpcomingSeries => s.status != Completed && IsUpcoming(s, now)
  }

  /** How many sessions land in column `k` of `series`. */
  function ColumnCount(ss: seq<Session>, labels: seq<string>, monthOf: int -> int, now: int, series: Series, k: int): nat
    decreases |ss|
  {
    if ss == [] then 0
    else
      var last := ss[|ss| - 1];
      ColumnCount(ss[..|ss| - 1], labels, monthOf, now, series, k) +
      (if Slot(labels, monthOf(last.start)) == k && CountsIn(last, series, now) then 1 else 0)
  }

  /**
   * `getMonthlyData`: allocates the two six-column arrays, bumps one column of
   * at most one series per session, and returns the labels and both columns.
   */
  method MonthlyData(ss: seq<Session>, currentMonth: int, monthOf: int -> int, now: int)
    returns (labels: seq<string>, completedData: seq<int>, upcomingData: seq<int>)
    requires 0 <= currentMonth < 12
    ensures labels == TrendLabels(currentMonth)
    ensures |completedData| == 6 && |upcomingData| == 6
    ensures forall k :: 0 <= k < 6 ==> completedData[k] == ColumnCount(ss, labels, monthOf, now, CompletedSeries, k)
    ensures forall k :: 0 <= k < 6 ==> upcomingData[k] == ColumnCount(ss, labels, monthOf, now, UpcomingSeries, k)
    ensures Total(completedData) <= ComputeStats(ss, now).completed
    ensures Total(upcomingData) <= ComputeStats(ss, now).upcoming
  {
    labels := TrendLabels(currentMonth);
    var completed := new int[6](_ => 0);
    var upcoming := new int[6](_ => 0);
    var i := 0;
    while i < |ss|
      invariant 0 <= i <= |ss|
      invariant forall k :: 0 <= k < 6 ==> completed[k] == ColumnCount(ss[..i], labels, monthOf, now, CompletedSeries, k)
      invariant forall k :: 0 <= k < 6 ==> upcoming[k] == ColumnCount(ss[..i], labels, monthOf, now, UpcomingSeries, k)
    {
      var s := ss[i];
      var k := Slot(labels, monthOf(s.start));
      ColumnCountStep(ss, i, labels, monthOf, now);
      if k != -1 {
        if s.status == Completed {
          completed[k] := completed[k] + 1;
        } else if s.status == Approved && s.start > now {
          upcoming[k] := upcoming[k] + 1;
        }
      }
      i := i + 1;
    }
    assert ss[..|ss|] == ss;
    completedData := completed[..];
    upcomingData := upcoming[..];
    ColumnsWithinCount(ss, labels, monthOf, now, CompletedSeries, completedData);
    ColumnsWithinCount(ss, labels, monthOf, now, UpcomingSeries, upcomingData);
    SeriesCount(ss, now, CompletedSeries);
    SeriesCount(ss, now, UpcomingSeries);
  }

  /** Taking one more session into account bumps only that session's column of the series it counts towards. */
  lemma ColumnCountStep(ss: seq<Session>, i: nat, labels: seq<string>, monthOf: int -> int, now: int)
    requires i < |ss|
    ensures forall series, k :: ColumnCount(ss[..i + 1], labels, monthOf, now, series, k) ==
              ColumnCount(ss[..i], labels, monthOf, now, series, k) +
              (if Slot(labels, monthOf(ss[i].start)) == k && CountsIn(ss[i], series, now) then 1 else 0)
  {
    assert ss[..i + 1][..i] == ss[..i];
  }

  /** How many sessions count towards `series` at all, whatever their month. */
  function SeriesTotal(ss: seq<Session>, now: int, series: Series): nat
    decreases |ss|
  {
    if ss == [] then 0
    else SeriesTotal(ss[..|ss| - 1], now, series) + (if CountsIn(ss[|ss| - 1], series, now) then 1 else 0)
  }

  /** The sum of the first `n` columns of `series`. */
  function ColumnsSum(ss: seq<Session>, labels: seq<string>, monthOf: int -> int, now: int, series: Series, n: nat): nat
  {
    if n == 0 then 0 else ColumnsSum(ss, labels, monthOf, now, series, n - 1) + ColumnCount(ss, labels, monthOf, now, series, n - 1)
  }

  lemma {:induction false} ColumnsSumAppend(ss: seq<Session>, s: Session, labels: seq<string>, monthOf: int -> int, now: int, series: Series, n: nat)
    ensures var k := Slot(labels, monthOf(s.start));
            ColumnsSum(ss + [s], labels, monthOf, now, series, n) ==
            ColumnsSum(ss, labels, monthOf, now, series, n) + (if 0 <= k < n && CountsIn(s, series, now) then 1 else 0)
  {
    assert (ss + [s])[..|ss + [s]| - 1] == ss;
    if n > 0 {
      ColumnsSumAppend(ss, s, labels, monthOf, now, series, n - 1);
    }
  }

  /** Each session adds to at most one column, so the six columns together never exceed the sessions counting towards the series. */
  lemma {:induction false} ColumnsSumBound(ss: seq<Session>, labels: seq<string>, monthOf: int -> int, now: int, series: Series, n: nat)
    ensures ColumnsSum(ss, labels, monthOf, now, series, n) <= SeriesTotal(ss, now, series)
    decreases |ss|
  {
    if ss == [] {
      ColumnsSumEmpty(labels, monthOf, now, series, n);
    } else {
      var init := ss[..|ss| - 1];
      assert ss == init + [ss[|ss| - 1]];
      ColumnsSumBound(init, labels, monthOf, now, series, n);
      ColumnsSumAppend(init, ss[|ss| - 1], labels, monthOf, now, series, n);
    }
  }

  lemma {:induction false} ColumnsSumEmpty(labels: seq<string>, monthOf: int -> int, now: int, series: Series, n: nat)
    ensures ColumnsSum([], labels, monthOf, now, series, n) == 0
  {
    if n > 0 {
      ColumnsSumEmpty(labels, monthOf, now, series, n - 1);
    }
  }

  lemma ColumnsWithinCount(ss: seq<Session>, labels: seq<string>, monthOf: int -> int, now: int, series: Series, data: seq<int>)
    requires |data| == 6
    requires forall k :: 0 <= k < 6 ==> data[k] == ColumnCount(ss, labels, monthOf, now, series, k)
    ensures Total(data) <= SeriesTotal(ss, now, series)
  {
    ColumnsSumBound(ss, labels, monthOf, now, series, 6);
    ColumnsSumIsTotal(ss, labels, monthOf, now, series, data, 6);
    assert data[..6] == data;
  }

  lemma {:induction false} ColumnsSumIsTotal(ss: seq<Session>, labels: seq<string>, monthOf: int -> int, now: int, series: Series, data: seq<int>, n: nat)
    requires n <= |data|
    requires forall k :: 0 <= k < n ==> data[k] == ColumnCount(ss, labels, monthOf, now, series, k)
    ensures Total(data[..n]) == ColumnsSum(ss, labels, monthOf, now, series, n)
  {
    if n > 0 {
      ColumnsSumIsTotal(ss, labels, monthOf, now, series, data, n - 1);
      assert data[..n] == data[..n - 1] + [data[n - 1]];
      TotalConcat(data[..n - 1], [data[n - 1]]);
    }
  }

  /** Counting a series over the whole list agrees with the status counts of the stats panel. */
  lemma {:induction false} SeriesCount(ss: seq<Session>, now: int, series: Series)
    ensures series == CompletedSeries ==> SeriesTotal(ss, now, series) == ComputeStats(ss, now).completed
    ensures series == UpcomingSeries ==> SeriesTotal(ss, now, series) == ComputeStats(ss, now).upcoming
    decreases |ss|
  {
    var p := (s: Session) => CountsIn(s, series, now);
    SeriesIsFilter(ss, now, series);
    FilterLength(ss, p);
    var st := ComputeStats(ss, now);
    if series == CompletedSeries {
      assert IndicesWhere(ss, p) == set i | 0 <= i < |ss| && ss[i].status == Completed;
    } else {
      assert IndicesWhere(ss, p) == set i | 0 <= i < |ss| && IsUpcoming(ss[i], now);
    }
  }

  lemma {:induction false} SeriesIsFilter(ss: seq<Session>, now: int, series: Series)
    ensures SeriesTotal(ss, now, series) == |Filter(ss, s => CountsIn(s, series, now))|
    decreases |ss|
  {
    if ss != [] {
      var init, last := ss[..|ss| - 1], ss[|ss| - 1];
      assert ss == init + [last];
      SeriesIsFilter(init, now, series);
      FilterConcat(init, [last], s => CountsIn(s, series, now));
      assert Filter([last], s => CountsIn(s, series, now)) == if CountsIn(last, series, now) then [last] else [];
    }
  }

  /** Before June no session reaches the chart: every column of both series is 0. */
  lemma {:induction false} EarlyMonthsEmpty(ss: seq<Session>, currentMonth: int, monthOf: int -> int, now: int, series: Series, k: int)
    requires 0 <= currentMonth < 5
    ensures ColumnCount(ss, TrendLabels(currentMonth), monthOf, now, series, k) == 0 || k == -1
    decreases |ss|
  {
    if ss != [] && k != -1 {
      EarlyMonthsEmpty(ss[..|ss| - 1], currentMonth, monthOf, now, series, k);
      SlotInWindow(currentMonth, monthOf(ss[|ss| - 1].start));
    }
  }

  /** A single session bumps at most one counter of the whole chart: one column of one series. */
  lemma AtMostOneCounter(s: Session, labels: seq<string>, monthOf: int -> int, now: int)
    ensures ColumnsSum([s], labels, monthOf, now, CompletedSeries, 6) +
            ColumnsSum([s], labels, monthOf, now, UpcomingSeries, 6) <= 1
  {
    assert [] + [s] == [s];
    ColumnsSumEmpty(labels, monthOf, now, CompletedSeries, 6);
    ColumnsSumEmpty(labels, monthOf, now, UpcomingSeries, 6);
    ColumnsSumAppend([], s, labels, monthOf, now, CompletedSeries, 6);
    ColumnsSumAppend([], s, labels, monthOf, now, UpcomingSeries, 6);
  }
}
