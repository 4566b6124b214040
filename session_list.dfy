/**
 * The session list: the fetched array is sorted in place, latest start
 * first, and each of the four tabs shows the sessions of one bucket.
 */
module SessionList {
  import opened Seqs
  import opened Sessions

  /** Latest start first: no session starts after one listed before it. */
  predicate SortedByStartDesc(s: seq<Session>) {
    forall i, j :: 0 <= i < j < |s| ==> s[i].start >= s[j].start
  }

  /**
   * `response.data.sort((a, b) => new Date(b.startTime) - new Date(a.startTime))`:
   * rearranges the array in place so that start times descend.
   */
  method SortByStartDesc(a: array<Session>)
    modifies a
    ensures SortedByStartDesc(a[..])
    ensures multiset(a[..]) == multiset(old(a[..]))
  {
    if a.Length < 2 {
      return;
    }
    var i := 1;
    while i < a.Length
      invariant 1 <= i <= a.Length
      invariant SortedByStartDesc(a[..i])
      invariant multiset(a[..]) == multiset(old(a[..]))
    {
      InsertLast(a, i);
      i := i + 1;
    }
    assert a[..a.Length] == a[..];
  }

  /**
   * Moves `a[i]` left past every earlier session that starts before it, so
   * that `a[..i + 1]` is sorted; those `i + 1` sessions are only reordered and
   * nothing after them moves.
   */
  method InsertLast(a: array<Session>, i: nat)
    requires i < a.Length
    requires SortedByStartDesc(a[..i])
    modifies a
    ensures SortedByStartDesc(a[..i + 1])
    ensures multiset(a[..i + 1]) == multiset(old(a[..i + 1]))
    ensures a[i + 1..] == old(a[i + 1..])
    ensures multiset(a[..]) == multiset(old(a[..]))
  {
    ghost var before := a[..];
    SiftLeft(a, i);
    PrefixPermutation(a[..], before, i + 1);
  }

  /** The loop of `InsertLast`: swaps `a[i]` leftwards until the session before it starts no earlier. */
  method SiftLeft(a: array<Session>, i: nat)
    requires i < a.Length
    requires SortedByStartDesc(a[..i])
    modifies a
    ensures SortedByStartDesc(a[..i + 1])
    ensures a[i + 1..] == old(a[i + 1..])
    ensures multiset(a[..]) == multiset(old(a[..]))
  {
    ghost var before := a[..];
    InsertStart(a[..], i);
    var j: nat := i;
    while j > 0 && a[j - 1].start < a[j].start
      invariant InsertInv(a[..], i, j)
      invariant multiset(a[..]) == multiset(before)
      invariant a[i + 1..] == before[i + 1..]
    {
      ghost var prev := a[..];
      InsertStep(prev, i, j);
      SwapKeepsSuffix(prev, i, j);
      Swap(a, j - 1, j);
      assert a[..] == prev[j - 1 := prev[j]][j := prev[j - 1]];
      j := j - 1;
    }
    InsertDone(a[..], i, j);
  }

  /**
   * The state of one insertion: `s[..i + 1]` is sorted except that the moving
   * session, now at `j`, starts after everything behind it, and its two
   * neighbours are in order with each other.
   */
  predicate InsertInv(s: seq<Session>, i: nat, j: nat) {
    j <= i < |s| &&
    (forall p, q :: 0 <= p < q <= i && q != j ==> s[p].start >= s[q].start) &&
    (forall q :: j < q <= i ==> s[j].start > s[q].start) &&
    (0 < j < i ==> s[j - 1].start >= s[j + 1].start)
  }

  lemma InsertStart(s: seq<Session>, i: nat)
    requires i < |s| && SortedByStartDesc(s[..i])
    ensures InsertInv(s, i, i)
  {
    forall p, q | 0 <= p < q <= i && q != i ensures s[p].start >= s[q].start {
      assert s[p] == s[..i][p] && s[q] == s[..i][q];
    }
  }

  /** Swapping the moving session with an earlier neighbour that starts before it keeps the insertion state, one place further left. */
  lemma InsertStep(s: seq<Session>, i: nat, j: nat)
    requires InsertInv(s, i, j) && 0 < j && s[j - 1].start < s[j].start
    ensures InsertInv(s[j - 1 := s[j]][j := s[j - 1]], i, j - 1)
  {
  }

  /** Swapping two places at or before `i` leaves everything after `i` as it was. */
  lemma SwapKeepsSuffix(s: seq<Session>, i: nat, j: nat)
    requires 0 < j <= i < |s|
    ensures s[j - 1 := s[j]][j := s[j - 1]][i + 1..] == s[i + 1..]
  {
  }

  /** Once the moving session meets an earlier one starting no earlier, the prefix is sorted. */
  lemma InsertDone(s: seq<Session>, i: nat, j: nat)
    requires InsertInv(s, i, j) && (j == 0 || s[j - 1].start >= s[j].start)
    ensures SortedByStartDesc(s[..i + 1])
  {
  }

  /** Two permutations of each other that agree from position `n` on are permutations of each other before `n`. */
  lemma PrefixPermutation(x: seq<Session>, y: seq<Session>, n: nat)
    requires n <= |x| == |y| && multiset(x) == multiset(y) && x[n..] == y[n..]
    ensures multiset(x[..n]) == multiset(y[..n])
  {
    assert x == x[..n] + x[n..];
    assert y == y[..n] + y[n..];
    calc {
      multiset(x[..n]);
      multiset(x) - multiset(x[n..]);
      multiset(y) - multiset(y[n..]);
      multiset(y[..n]);
    }
  }

  /** Exchanges two neighbouring sessions. */
  method Swap(a: array<Session>, i: nat, j: nat)
    requires i < j < a.Length
    modifies a
    ensures a[i] == old(a[j]) && a[j] == old(a[i])
    ensures forall k :: 0 <= k < a.Length && k != i && k != j ==> a[k] == old(a[k])
    ensures multiset(a[..]) == multiset(old(a[..]))
  {
    a[i], a[j] := a[j], a[i];
  }

  /** The sessions a tab shows: 0 pending, 1 upcoming, 2 completed, 3 declined; any other tab shows none. */
  predicate InTab(s: Session, tab: int, now: int) {
    match tab
    case 0 => IsPending(s)
    case 1 => IsUpcoming(s, now)
    case 2 => IsCompleted(s)
    case 3 => s.status == Declined
    case _ => false
  }

  /** The list rendered under tab `tab`: the sorted sessions filtered by the tab's test. */
  function TabSessions(sorted: seq<Session>, tab: int, now: int): (r: seq<Session>)
    ensures forall i :: 0 <= i < |r| ==> r[i] in sorted && InTab(r[i], tab, now)
    ensures forall i :: 0 <= i < |sorted| && InTab(sorted[i], tab, now) ==> sorted[i] in r
    ensures !(0 <= tab < 4) ==> r == []
    ensures SortedByStartDesc(sorted) ==> SortedByStartDesc(r)
    ensures |r| == |IndicesWhere(sorted, (s: Session) => InTab(s, tab, now))|
    ensures r == Filter(sorted, (s: Session) => InTab(s, tab, now))
  {
    var r := Filter(sorted, (s: Session) => InTab(s, tab, now));
    FilterLength(sorted, (s: Session) => InTab(s, tab, now));
    assert r != [] ==> InTab(r[0], tab, now);
    if SortedByStartDesc(sorted) then
      FilterKeepsOrder(sorted, (s: Session) => InTab(s, tab, now), (x: Session, y: Session) => x.start >= y.start);
      r
    else
      r
  }

  /** No session is shown under two tabs. */
  lemma TabsDisjoint(s: Session, t1: int, t2: int, now: int)
    requires t1 != t2
    ensures !(InTab(s, t1, now) && InTab(s, t2, now))
  {
  }

  /** An approved session that has already started is under no tab; every other known status is under exactly one. */
  lemma EveryBucketedSessionHasATab(s: Session, now: int)
    ensures (exists t :: 0 <= t < 4 && InTab(s, t, now)) <==>
            s.status in {Pending, Completed, Declined} || IsUpcoming(s, now)
  {
    if s.status == Pending { assert InTab(s, 0, now); }
    if IsUpcoming(s, now) { assert InTab(s, 1, now); }
    if s.status == Completed { assert InTab(s, 2, now); }
    if s.status == Declined { assert InTab(s, 3, now); }
  }
}
