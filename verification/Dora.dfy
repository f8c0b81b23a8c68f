/** The DORA figures: recovery times, percentiles, daily counts and change-failure signals. Times are whole seconds, in UTC. */
module Dora {
  import opened Options
  import opened Sorting
  import opened Sums

  datatype Deploy = Deploy(id: nat, env: string, state: string, at: int)

  predicate IsFailing(d: Deploy) { d.state == "failure" || d.state == "error" }

  predicate IsSuccess(d: Deploy) { d.state == "success" }

  function At(d: Deploy): int { d.at }

  // ---- Recoveries ----

  /** `s` recovers `f`: a later success in the same environment. */
  predicate Recovers(f: Deploy, s: Deploy) { IsSuccess(s) && s.env == f.env && s.at > f.at }

  /** The time of the earliest recovery of `f` among `ds`, in whatever order they come. */
  function Earliest(ds: seq<Deploy>, f: Deploy): Option<int> {
    if ds == [] then None
    else
      var rest := Earliest(ds[1..], f);
      if !Recovers(f, ds[0]) then rest
      else if rest.None? || ds[0].at < rest.value then Some(ds[0].at) else rest
  }

  /** `Earliest` is the minimum over all recoveries, and absent if and only if there is none. */
  lemma {:induction false} EarliestIsMinimum(ds: seq<Deploy>, f: Deploy)
    ensures Earliest(ds, f).None? <==> forall s :: s in ds ==> !Recovers(f, s)
    ensures Earliest(ds, f).Some? ==> exists s :: s in ds && Recovers(f, s) && s.at == Earliest(ds, f).value
    ensures Earliest(ds, f).Some? ==> forall s :: s in ds && Recovers(f, s) ==> Earliest(ds, f).value <= s.at
  {
    if ds != [] { EarliestIsMinimum(ds[1..], f); }
  }

  lemma EarliestPermutes(a: seq<Deploy>, b: seq<Deploy>, f: Deploy)
    requires multiset(a) == multiset(b)
    ensures Earliest(a, f) == Earliest(b, f)
  {
    EarliestIsMinimum(a, f);
    EarliestIsMinimum(b, f);
    forall s ensures s in a <==> s in b { MembersAgree(a, b, s); }
  }

  /** The recovery gap of one deploy against all of `ds`, if it failed and was recovered. */
  function GapOf(f: Deploy, ds: seq<Deploy>): multiset<int> {
    var e := if IsFailing(f) then Earliest(ds, f) else None;
    if e.Some? then multiset{e.value - f.at} else multiset{}
  }

  /** The recovery gaps of the failures in `fs`. */
  function Gaps(fs: seq<Deploy>, ds: seq<Deploy>): multiset<int> {
    if fs == [] then multiset{} else GapOf(fs[0], ds) + Gaps(fs[1..], ds)
  }

  lemma {:induction false} GapsSnoc(fs: seq<Deploy>, f: Deploy, ds: seq<Deploy>)
    ensures Gaps(fs + [f], ds) == Gaps(fs, ds) + GapOf(f, ds)
  {
    hide GapOf;
    if fs == [] {
      assert [] + [f] == [f] && [f][1..] == [];
    } else {
      assert (fs + [f])[1..] == fs[1..] + [f];
      GapsSnoc(fs[1..], f, ds);
    }
  }

  lemma {:induction false} GapsRemove(fs: seq<Deploy>, k: nat, ds: seq<Deploy>)
    requires k < |fs|
    ensures Gaps(fs, ds) == GapOf(fs[k], ds) + Gaps(fs[..k] + fs[k + 1..], ds)
  {
    hide GapOf;
    if k == 0 {
      assert fs[..0] + fs[1..] == fs[1..];
    } else {
      GapsRemove(fs[1..], k - 1, ds);
      var rest := fs[..k] + fs[k + 1..];
      assert rest[0] == fs[0] && rest[1..] == fs[1..][..k - 1] + fs[1..][k..];
    }
  }

  lemma {:induction false} GapsPermute(a: seq<Deploy>, b: seq<Deploy>, da: seq<Deploy>, db: seq<Deploy>)
    requires multiset(a) == multiset(b) && multiset(da) == multiset(db)
    ensures Gaps(a, da) == Gaps(b, db)
    decreases |a|
  {
    hide GapOf;
    if a == [] {
      assert |multiset(b)| == 0;
    } else {
      MembersAgree(a, b, a[0]);
      var k := Removed(a, b);
      GapsPermute(a[1..], b[..k] + b[k + 1..], da, db);
      GapsRemove(b, k, db);
      GapPermutes(a[0], da, db);
    }
  }

  lemma GapPermutes(f: Deploy, a: seq<Deploy>, b: seq<Deploy>)
    requires multiset(a) == multiset(b)
    ensures GapOf(f, a) == GapOf(f, b)
  {
    hide Earliest;
    EarliestPermutes(a, b, f);
  }

  lemma Removed<T>(a: seq<T>, b: seq<T>) returns (k: nat)
    requires a != [] && multiset(a) == multiset(b) && a[0] in b
    ensures k < |b| && b[k] == a[0] && multiset(a[1..]) == multiset(b[..k] + b[k + 1..])
  {
    k :| 0 <= k < |b| && b[k] == a[0];
    SplitAt(b, k);
    SplitHead(a);
    assert multiset(a[1..]) == multiset(a) - multiset{a[0]};
  }

  lemma InOrder(s: seq<Deploy>, i: nat, j: nat)
    requires SortedBy(s, At) && i < |s| && j < |s|
    ensures i <= j ==> s[i].at <= s[j].at
  {
    if i < j { assert At(s[i]) <= At(s[j]); }
  }

  predicate Matches(f: Deploy, s: Deploy) { IsSuccess(s) && s.env == f.env }

  /** The first position from `j` on that holds a success of the environment of `f`. */
  function FirstFrom(s: seq<Deploy>, f: Deploy, j: nat): (r: Option<nat>)
    requires j <= |s|
    ensures r.Some? ==> j <= r.value < |s| && Matches(f, s[r.value]) && forall k :: j <= k < r.value ==> !Matches(f, s[k])
    ensures r.None? ==> forall k :: j <= k < |s| ==> !Matches(f, s[k])
    decreases |s| - j
  {
    if j == |s| then None else if Matches(f, s[j]) then Some(j) else FirstFrom(s, f, j + 1)
  }

  /** What position `i` contributes: the gap to the next success of its environment, if it failed. */
  function PairAt(s: seq<Deploy>, i: nat): seq<int>
    requires i < |s|
  {
    if !IsFailing(s[i]) then []
    else
      var r := FirstFrom(s, s[i], i + 1);
      if r.Some? then [s[r.value].at - s[i].at] else []
  }

  /** The pairs of the first `n` positions, in order. */
  function PairsOf(s: seq<Deploy>, n: nat): seq<int>
    requires n <= |s|
  {
    if n == 0 then [] else PairsOf(s, n - 1) + PairAt(s, n - 1)
  }

  /** A failure and a success of one environment at the same instant: which comes first is up to the sort. */
  predicate Ties(f: Deploy, s: Deploy) { IsFailing(f) && Matches(f, s) && f.at == s.at }

  predicate Contested(ds: seq<Deploy>) {
    exists i, j :: 0 <= i < |ds| && 0 <= j < |ds| && Ties(ds[i], ds[j])
  }

  lemma ContestedPermutes(a: seq<Deploy>, b: seq<Deploy>)
    requires multiset(a) == multiset(b) && Contested(a)
    ensures Contested(b)
  {
    var i, j :| 0 <= i < |a| && 0 <= j < |a| && Ties(a[i], a[j]);
    MembersAgree(a, b, a[i]);
    MembersAgree(a, b, a[j]);
    var k :| 0 <= k < |b| && b[k] == a[i];
    var l :| 0 <= l < |b| && b[l] == a[j];
    assert Ties(b[k], b[l]);
  }

  /** In a sorted copy without such a tie, the next success after a failure is the earliest recovery. */
  lemma PairIsGap(s: seq<Deploy>, i: nat)
    requires SortedBy(s, At) && !Contested(s) && i < |s|
    ensures multiset(PairAt(s, i)) == GapOf(s[i], s)
  {
    hide Earliest;
    if IsFailing(s[i]) {
      EarliestIsMinimum(s, s[i]);
      var r := FirstFrom(s, s[i], i + 1);
      if r.Some? {
        InOrder(s, i, r.value);
        assert !Ties(s[i], s[r.value]);
        assert Recovers(s[i], s[r.value]);
      }
      forall x | x in s && Recovers(s[i], x) ensures r.Some? && s[r.value].at <= x.at {
        var k :| 0 <= k < |s| && s[k] == x;
        InOrder(s, k, i);
        assert Matches(s[i], s[k]);
        if r.Some? { InOrder(s, r.value, k); }
      }
    }
  }

  lemma {:induction false} PairsAreGaps(s: seq<Deploy>, n: nat)
    requires SortedBy(s, At) && !Contested(s) && n <= |s|
    ensures multiset(PairsOf(s, n)) == Gaps(s[..n], s)
  {
    hide PairAt, GapOf, Contested, SortedBy;
    if n == 0 {
      assert s[..0] == [];
    } else {
      PairsAreGaps(s, n - 1);
      PairIsGap(s, n - 1);
      GapsSnoc(s[..n - 1], s[n - 1], s);
      assert s[..n] == s[..n - 1] + [s[n - 1]];
    }
  }

  /** The pass over a sorted copy: each failure with the next success of its environment. */
  method PairUp(sorted: seq<Deploy>) returns (out: seq<int>)
    ensures out == PairsOf(sorted, |sorted|)
  {
    out := [];
    var i := 0;
    while i < |sorted|
      invariant 0 <= i <= |sorted| && out == PairsOf(sorted, i)
    {
      if IsFailing(sorted[i]) {
        var j := i + 1;
        while j < |sorted| && !(sorted[j].env == sorted[i].env && IsSuccess(sorted[j]))
          invariant i < j <= |sorted| && FirstFrom(sorted, sorted[i], i + 1) == FirstFrom(sorted, sorted[i], j)
        {
          j := j + 1;
        }
        if j < |sorted| {
          out := out + [sorted[j].at - sorted[i].at];
        }
      }
      i := i + 1;
    }
  }

  /** `out` is the answer for one way to sort the deploys. */
  ghost predicate IsAnswer(deploys: seq<Deploy>, out: multiset<int>) {
    exists s :: SortedBy(s, At) && multiset(s) == multiset(deploys) && out == multiset(PairsOf(s, |s|))
  }

  /**
   * collectRecoveries: the pairs of some sorted copy. Unless a failure shares its instant with a success of
   * its environment, these are, for each failure with a later success in its environment, the gap to the
   * earliest one, and nothing else, whatever order the input came in.
   */
  method CollectRecoveries(deploys: seq<Deploy>) returns (out: seq<int>)
    ensures IsAnswer(deploys, multiset(out))
    ensures !Contested(deploys) ==> multiset(out) == Gaps(deploys, deploys)
  {
    var sorted := SortCopy(deploys, At);
    out := PairUp(sorted);
    if !Contested(deploys) { Uncontested(deploys, sorted); }
  }

  lemma Uncontested(deploys: seq<Deploy>, sorted: seq<Deploy>)
    requires !Contested(deploys) && SortedBy(sorted, At) && multiset(sorted) == multiset(deploys)
    ensures multiset(PairsOf(sorted, |sorted|)) == Gaps(deploys, deploys)
  {
    hide Contested, SortedBy;
    if Contested(sorted) { ContestedPermutes(sorted, deploys); }
    PairsAreGaps(sorted, |sorted|);
    assert sorted[..|sorted|] == sorted;
    GapsPermute(sorted, deploys, sorted, deploys);
  }

  // ---- Where the sort decides ----

  function SuccessLast(d: Deploy): int { 2 * d.at + (if IsSuccess(d) then 1 else 0) }

  function SuccessFirst(d: Deploy): int { 2 * d.at + (if IsSuccess(d) then 0 else 1) }

  lemma SortedByTime(s: seq<Deploy>)
    requires SortedBy(s, SuccessLast) || SortedBy(s, SuccessFirst)
    ensures SortedBy(s, At)
  {
    forall i, j | 0 <= i < j < |s| ensures At(s[i]) <= At(s[j]) {
      assert SortedBy(s, SuccessLast) ==> SuccessLast(s[i]) <= SuccessLast(s[j]);
      assert SortedBy(s, SuccessFirst) ==> SuccessFirst(s[i]) <= SuccessFirst(s[j]);
    }
  }

  lemma {:induction false} PairIn(s: seq<Deploy>, n: nat, i: nat, g: int)
    requires i < n <= |s| && g in PairAt(s, i)
    ensures g in PairsOf(s, n)
  {
    hide PairAt;
    if i < n - 1 { PairIn(s, n - 1, i, g); }
  }

  lemma PairsAtOnce(s: seq<Deploy>, i: nat, j: nat)
    requires SortedBy(s, At) && i < j < |s| && Ties(s[i], s[j])
    ensures PairAt(s, i) == [0]
  {
    var r := FirstFrom(s, s[i], i + 1);
    InOrder(s, i, r.value);
    InOrder(s, r.value, j);
  }

  /** With the successes last, a contested failure is paired with the success of its own instant. */
  lemma ZeroGap(s: seq<Deploy>)
    requires SortedBy(s, SuccessLast) && Contested(s)
    ensures 0 in PairsOf(s, |s|)
  {
    hide PairAt, PairsOf;
    var i, j :| 0 <= i < |s| && 0 <= j < |s| && Ties(s[i], s[j]);
    assert SuccessLast(s[i]) < SuccessLast(s[j]);
    Later(s, SuccessLast, i, j);
    SortedByTime(s);
    PairsAtOnce(s, i, j);
    PairIn(s, |s|, i, 0);
  }

  /** With the successes first, none is. */
  lemma {:induction false} NoZeroGap(s: seq<Deploy>, n: nat)
    requires SortedBy(s, SuccessFirst) && n <= |s|
    ensures 0 !in PairsOf(s, n)
  {
    if n > 0 {
      NoZeroGap(s, n - 1);
      var i := n - 1;
      var r := FirstFrom(s, s[i], i + 1);
      if IsFailing(s[i]) && r.Some? { assert SuccessFirst(s[i]) <= SuccessFirst(s[r.value]); }
    }
  }

  /** The deploys determine the answer if and only if no failure shares its instant with a success of its environment. */
  lemma DeterminedExactly(deploys: seq<Deploy>)
    ensures !Contested(deploys) <==> forall x, y :: IsAnswer(deploys, x) && IsAnswer(deploys, y) ==> x == y
  {
    hide Contested, SortedBy, PairsOf;
    if Contested(deploys) {
      var a := SortedExists(deploys, SuccessLast);
      var b := SortedExists(deploys, SuccessFirst);
      SortedByTime(a);
      SortedByTime(b);
      ContestedPermutes(deploys, a);
      ZeroGap(a);
      NoZeroGap(b, |b|);
      assert IsAnswer(deploys, multiset(PairsOf(a, |a|))) && IsAnswer(deploys, multiset(PairsOf(b, |b|)));
      assert 0 in multiset(PairsOf(a, |a|)) && 0 !in multiset(PairsOf(b, |b|));
    } else {
      forall x | IsAnswer(deploys, x) ensures x == Gaps(deploys, deploys) {
        var s :| SortedBy(s, At) && multiset(s) == multiset(deploys) && x == multiset(PairsOf(s, |s|));
        Uncontested(deploys, s);
      }
    }
  }

  // ---- Percentile and median ----

  function Identity(x: int): int { x }

  function CountIf(s: seq<int>, p: int -> bool): nat {
    if s == [] then 0 else (if p(s[0]) then 1 else 0) + CountIf(s[1..], p)
  }

  lemma {:induction false} CountSplit(s: seq<int>, k: nat, p: int -> bool)
    requires k <= |s|
    ensures CountIf(s, p) == CountIf(s[..k], p) + CountIf(s[k..], p)
  {
    if k == 0 {
      assert s[..0] == [] && s[0..] == s;
    } else {
      CountSplit(s[1..], k - 1, p);
      assert s[..k][1..] == s[1..][..k - 1] && s[1..][k - 1..] == s[k..];
    }
  }

  lemma {:induction false} CountAll(s: seq<int>, p: int -> bool)
    requires forall i :: 0 <= i < |s| ==> p(s[i])
    ensures CountIf(s, p) == |s|
  {
    if s != [] { CountAll(s[1..], p); }
  }

  lemma {:induction false} CountNone(s: seq<int>, p: int -> bool)
    requires forall i :: 0 <= i < |s| ==> !p(s[i])
    ensures CountIf(s, p) == 0
  {
    if s != [] { CountNone(s[1..], p); }
  }

  lemma {:induction false} CountBound(s: seq<int>, p: int -> bool)
    ensures CountIf(s, p) <= |s|
  {
    if s != [] { CountBound(s[1..], p); }
  }

  lemma {:induction false} CountPermutes(a: seq<int>, b: seq<int>, p: int -> bool)
    requires multiset(a) == multiset(b)
    ensures CountIf(a, p) == CountIf(b, p)
    decreases |a|
  {
    if a == [] {
      assert |multiset(b)| == 0;
    } else {
      MembersAgree(a, b, a[0]);
      var k := Removed(a, b);
      var c := b[..k] + b[k + 1..];
      CountPermutes(a[1..], c, p);
      CountSplit(b, k, p);
      CountSplit(c, k, p);
      assert b[k..][1..] == b[k + 1..] && c[..k] == b[..k] && c[k..] == b[k + 1..];
    }
  }

  function AtMost(v: int): int -> bool { (x: int) => x <= v }

  function Below(v: int): int -> bool { (x: int) => x < v }

  function AtLeast(v: int): int -> bool { (x: int) => x >= v }

  function Above(v: int): int -> bool { (x: int) => x > v }

  /** Around position `k` of a sorted sequence. */
  lemma RankCounts(s: seq<int>, k: nat)
    requires SortedBy(s, Identity) && k < |s|
    ensures CountIf(s, AtMost(s[k])) >= k + 1 && CountIf(s, Below(s[k])) <= k && CountIf(s, AtLeast(s[k])) >= |s| - k
    ensures CountIf(s, Above(s[k])) <= |s| - 1 - k
  {
    var v := s[k];
    CountSplit(s, k + 1, AtMost(v));
    CountSplit(s, k, Below(v));
    CountSplit(s, k, AtLeast(v));
    CountSplit(s, k + 1, Above(v));
    forall i | 0 <= i < |s| ensures i <= k ==> s[i] <= v {
      if i < k { assert Identity(s[i]) <= Identity(s[k]); }
    }
    forall i | 0 <= i < |s| ensures i >= k ==> s[i] >= v {
      if k < i { assert Identity(s[k]) <= Identity(s[i]); }
    }
    CountAll(s[..k + 1], AtMost(v));
    CountBound(s[..k], Below(v));
    CountNone(s[k..], Below(v));
    CountAll(s[k..], AtLeast(v));
    CountNone(s[..k + 1], Above(v));
    CountBound(s[k + 1..], Above(v));
  }

  /** Ceiling of a quotient. */
  function CeilDiv(a: int, b: nat): (r: int)
    requires b > 0
    ensures r * b >= a && (r - 1) * b < a
  {
    var q := a / b;
    assert a == q * b + a % b;
    if a % b == 0 then q else q + 1
  }

  /**
   * percentileHours, before the conversion to hours: the nearest-rank percentile. At least p percent of
   * the samples are at most the result, and fewer than p percent lie strictly below it. Out of range, p is
   * clamped: the minimum for p of zero or less, the maximum from 100 on.
   */
  method Percentile(durations: seq<int>, p: int) returns (v: int)
    ensures durations == [] ==> v == 0
    ensures durations != [] ==>
              && v in durations
              && (0 < p <= 100 ==> 100 * CountIf(durations, AtMost(v)) >= p * |durations| && 100 * CountIf(durations, Below(v)) < p * |durations|)
              && (p <= 0 ==> forall d :: d in durations ==> v <= d)
              && (p >= 100 ==> forall d :: d in durations ==> d <= v)
  {
    if durations == [] { return 0; }
    var sorted := SortCopy(durations, Identity);
    SameLength(durations, sorted);
    var idx := CeilDiv(|sorted| * p, 100) - 1;
    RankInRange(|sorted|, p);
    if idx < 0 { idx := 0; }
    if idx >= |sorted| { idx := |sorted| - 1; }
    v := sorted[idx];
    RankCounts(sorted, idx);
    MembersAgree(durations, sorted, v);
    CountPermutes(durations, sorted, AtMost(v));
    CountPermutes(durations, sorted, Below(v));
    if p <= 0 || p >= 100 { Extremes(durations, sorted); }
  }

  lemma Extremes(values: seq<int>, sorted: seq<int>)
    requires values != [] && SortedBy(sorted, Identity) && multiset(values) == multiset(sorted)
    ensures sorted != [] && forall d :: d in values ==> sorted[0] <= d <= sorted[|sorted| - 1]
  {
    SameLength(values, sorted);
    forall d | d in values ensures sorted[0] <= d <= sorted[|sorted| - 1] {
      MembersAgree(values, sorted, d);
      var k :| 0 <= k < |sorted| && sorted[k] == d;
      if k > 0 { assert Identity(sorted[0]) <= Identity(sorted[k]); }
      if k < |sorted| - 1 { assert Identity(sorted[k]) <= Identity(sorted[|sorted| - 1]); }
    }
  }

  lemma RankInRange(n: nat, p: int)
    requires n > 0
    ensures 0 < p <= 100 ==> 1 <= CeilDiv(n * p, 100) <= n
    ensures p <= 0 ==> CeilDiv(n * p, 100) <= 0
    ensures p >= 100 ==> CeilDiv(n * p, 100) >= n
  {
    hide CeilDiv;
    Times(n, p);
    RankBound(n * p, n);
  }

  lemma Times(n: nat, p: int)
    ensures (0 < p ==> n * p >= n) && (p <= 0 ==> n * p <= 0)
    ensures (p <= 100 ==> n * p <= 100 * n) && (p >= 100 ==> n * p >= 100 * n)
  {
    if 0 < p { Grows(n, p - 1); } else { Grows(n, -p); }
    if p <= 100 { Grows(n, 100 - p); } else { Grows(n, p - 100); }
  }

  lemma Grows(n: nat, k: nat)
    ensures n * k >= 0
  {}

  lemma RankBound(m: int, n: nat)
    ensures 0 < m <= 100 * n ==> 1 <= CeilDiv(m, 100) <= n
    ensures m <= 0 ==> CeilDiv(m, 100) <= 0
    ensures m >= 100 * n ==> CeilDiv(m, 100) >= n
  {}

  /**
   * median: the mean of the two middle values, which fewer than half of the values are strictly below and above,
   * and at least half at most and at least. With an odd number of values the two are the same.
   */
  method Median(values: seq<int>) returns (m: real)
    ensures values == [] ==> m == 0.0
    ensures values != [] ==>
              exists lo, hi :: lo in values && hi in values && lo <= hi && m == (lo + hi) as real / 2.0
                && (|values| % 2 == 1 ==> lo == hi)
                && 2 * CountIf(values, AtMost(lo)) >= |values| && 2 * CountIf(values, Below(lo)) < |values|
                && 2 * CountIf(values, AtLeast(hi)) >= |values| && 2 * CountIf(values, Above(hi)) < |values|
  {
    if values == [] { return 0.0; }
    var sorted := SortCopy(values, Identity);
    SameLength(values, sorted);
    var mid := |sorted| / 2;
    var hi := sorted[mid];
    var lo := if |sorted| % 2 == 1 then hi else sorted[mid - 1];
    m := if |sorted| % 2 == 1 then hi as real else (lo + hi) as real / 2.0;
    RankCounts(sorted, mid);
    if |sorted| % 2 == 0 {
      RankCounts(sorted, mid - 1);
      assert Identity(sorted[mid - 1]) <= Identity(sorted[mid]);
    }
    MembersAgree(values, sorted, lo);
    MembersAgree(values, sorted, hi);
    CountPermutes(values, sorted, AtMost(lo));
    CountPermutes(values, sorted, AtLeast(hi));
    CountPermutes(values, sorted, Below(lo));
    CountPermutes(values, sorted, Above(hi));
    assert m == (lo + hi) as real / 2.0;
  }

  // ---- Daily counts ----

  const DAY := 86400

  function TruncDay(t: int): int { t - t % DAY }

  datatype Snapshot = Snapshot(date: int, total: nat, successful: nat, failed: nat)

  function DeploysWhere(ds: seq<Deploy>, p: Deploy -> bool): nat {
    if ds == [] then 0 else DeploysWhere(ds[..|ds| - 1], p) + (if p(ds[|ds| - 1]) then 1 else 0)
  }

  lemma WhereSnoc(ds: seq<Deploy>, k: nat, p: Deploy -> bool)
    requires k < |ds|
    ensures DeploysWhere(ds[..k + 1], p) == DeploysWhere(ds[..k], p) + (if p(ds[k]) then 1 else 0)
  {
    assert ds[..k + 1][..k] == ds[..k];
  }

  function OnDay(day: int): Deploy -> bool { (d: Deploy) => TruncDay(d.at) == day }

  function SuccessOn(day: int): Deploy -> bool { (d: Deploy) => TruncDay(d.at) == day && IsSuccess(d) }

  function FailureOn(day: int): Deploy -> bool { (d: Deploy) => TruncDay(d.at) == day && IsFailing(d) }

  /** What a day's snapshot must say about the deploys. */
  ghost predicate SnapshotOf(out: Snapshot, ds: seq<Deploy>, day: int) {
    out.date == day && out.total == DeploysWhere(ds, OnDay(day)) && out.successful == DeploysWhere(ds, SuccessOn(day))
    && out.failed == DeploysWhere(ds, FailureOn(day))
  }

  lemma DayIndex(t: int, startDay: int, k: nat)
    requires startDay % DAY == 0
    ensures TruncDay(t) == startDay + k * DAY <==> TruncDay(t) >= startDay && (TruncDay(t) - startDay) / DAY == k
  {
    assert TruncDay(t) % DAY == 0;
  }

  /** Which day an instant of the window falls on, and that it is none outside the window. */
  lemma DayInWindow(t: int, startDay: int, endDay: int)
    requires startDay % DAY == 0 && endDay % DAY == 0 && startDay <= endDay
    ensures startDay <= t && t <= endDay + DAY ==>
              TruncDay(t) >= startDay && (TruncDay(t) - startDay) / DAY >= 0
              && ((TruncDay(t) - startDay) / DAY >= (endDay - startDay) / DAY + 1 <==> t == endDay + DAY)
    ensures TruncDay(t) < startDay <==> t < startDay
    ensures TruncDay(t) > endDay <==> t >= endDay + DAY
  {}

  /**
   * bucketByDay: one snapshot a day from the first to the last day of the window, each counting
   * exactly the deploys of its own day; a day without deploys is there with zeros.
   */
  method BucketByDay(deploys: seq<Deploy>, since: int, now: int) returns (out: array<Snapshot>)
    requires since <= now
    ensures fresh(out) && out.Length == (TruncDay(now) - TruncDay(since)) / DAY + 1
    ensures forall k :: 0 <= k < out.Length ==> SnapshotOf(out[k], deploys, TruncDay(since) + k * DAY)
  {
    var startDay, endDay := TruncDay(since), TruncDay(now);
    var days := (endDay - startDay) / DAY + 1;
    assert startDay % DAY == 0 && endDay % DAY == 0 && startDay <= endDay;
    out := new Snapshot[days](i => Snapshot(startDay + i * DAY, 0, 0, 0));
    var n := 0;
    while n < |deploys|
      invariant 0 <= n <= |deploys| && fresh(out) && out.Length == days
      invariant forall k :: 0 <= k < days ==> SnapshotOf(out[k], deploys[..n], startDay + k * DAY)
    {
      var d := deploys[n];
      ghost var was := out[..];
      if !(d.at < startDay || d.at > endDay + DAY) {
        DayInWindow(d.at, startDay, endDay);
        var idx := (TruncDay(d.at) - startDay) / DAY;
        if idx < days {
          out[idx] := out[idx].(total := out[idx].total + 1);
          if IsSuccess(d) {
            out[idx] := out[idx].(successful := out[idx].successful + 1);
          } else if IsFailing(d) {
            out[idx] := out[idx].(failed := out[idx].failed + 1);
          }
        }
      }
      forall k | 0 <= k < days ensures SnapshotOf(out[k], deploys[..n + 1], startDay + k * DAY) {
        OneMore(was[k], out[k], deploys, n, startDay, endDay, k);
      }
      n := n + 1;
    }
    assert deploys[..n] == deploys;
  }

  lemma OneMore(a: Snapshot, b: Snapshot, ds: seq<Deploy>, n: nat, startDay: int, endDay: int, k: nat)
    requires n < |ds| && startDay % DAY == 0 && endDay % DAY == 0 && startDay <= endDay && k < (endDay - startDay) / DAY + 1
    requires SnapshotOf(a, ds[..n], startDay + k * DAY)
    requires var d := ds[n];
      var hit := startDay <= d.at <= endDay + DAY && (TruncDay(d.at) - startDay) / DAY == k;
      b == if !hit then a
           else Snapshot(a.date, a.total + 1, a.successful + (if IsSuccess(d) then 1 else 0), a.failed + (if IsFailing(d) then 1 else 0))
    ensures SnapshotOf(b, ds[..n + 1], startDay + k * DAY)
  {
    var day := startDay + k * DAY;
    WhereSnoc(ds, n, OnDay(day));
    WhereSnoc(ds, n, SuccessOn(day));
    WhereSnoc(ds, n, FailureOn(day));
    DayIndex(ds[n].at, startDay, k);
    DayInWindow(ds[n].at, startDay, endDay);
  }

  function InWindow(startDay: int, endDay: int): Deploy -> bool { (d: Deploy) => startDay <= d.at < endDay + DAY }

  /** Deploys of each of the days from `startDay` on. */
  ghost function Daily(ds: seq<Deploy>, startDay: int): nat -> int {
    (k: nat) => DeploysWhere(ds, OnDay(startDay + k * DAY))
  }

  /** No deploy of the window is lost or counted twice: the daily totals add up to the deploys of the window. */
  lemma {:induction false} BucketsConserve(ds: seq<Deploy>, startDay: int, endDay: int)
    requires startDay % DAY == 0 && endDay % DAY == 0 && startDay <= endDay
    ensures Sum((endDay - startDay) / DAY + 1, Daily(ds, startDay)) == DeploysWhere(ds, InWindow(startDay, endDay))
    decreases |ds|
  {
    var days := (endDay - startDay) / DAY + 1;
    if ds == [] {
      SumShrink(0, days, Daily(ds, startDay));
    } else {
      var n := |ds| - 1;
      BucketsConserve(ds[..n], startDay, endDay);
      DayInWindow(ds[n].at, startDay, endDay);
      forall k: nat | k < days
        ensures Daily(ds, startDay)(k) == Daily(ds[..n], startDay)(k) + (if OnDay(startDay + k * DAY)(ds[n]) then 1 else 0)
      {}
      if InWindow(startDay, endDay)(ds[n]) {
        var idx := (TruncDay(ds[n].at) - startDay) / DAY;
        forall k: nat | k < days ensures OnDay(startDay + k * DAY)(ds[n]) <==> k == idx { DayIndex(ds[n].at, startDay, k); }
        SumUpdate(days, Daily(ds[..n], startDay), Daily(ds, startDay), idx);
      } else {
        forall k: nat | k < days ensures !OnDay(startDay + k * DAY)(ds[n]) { DayIndex(ds[n].at, startDay, k); }
        SumEq(days, Daily(ds[..n], startDay), Daily(ds, startDay));
      }
    }
  }

  // ---- Change failures ----

  const DAY_GAP := 24 * 3600

  /** Position `i` of a sorted list signals a failure: a failed deploy, or a success hard on the heels of a success. */
  predicate Signals(s: seq<Deploy>, i: nat)
    requires i < |s|
  {
    IsFailing(s[i]) || (i > 0 && IsSuccess(s[i]) && IsSuccess(s[i - 1]) && 0 < s[i].at - s[i - 1].at < DAY_GAP)
  }

  function SignalCount(s: seq<Deploy>, n: nat): (c: nat)
    requires n <= |s|
    ensures c <= n
  {
    if n == 0 then 0 else SignalCount(s, n - 1) + (if Signals(s, n - 1) then 1 else 0)
  }

  function FailureCount(s: seq<Deploy>, n: nat): nat
    requires n <= |s|
  {
    if n == 0 then 0 else FailureCount(s, n - 1) + (if s[n - 1].state in {"failure", "error"} then 1 else 0)
  }

  /** Of two successes in a row the second comes less than a day, but not no time, after the first. */
  predicate HotFix(s: seq<Deploy>, i: nat)
    requires 0 < i < |s|
  {
    s[i - 1].state == "success" && s[i].state == "success" && s[i - 1].at != s[i].at && s[i].at < s[i - 1].at + 86400
  }

  /** What the heuristic adds to the failures: it counts them all, and exactly them if and only if no success is a hot fix. */
  lemma {:induction false} SignalsAreFailures(s: seq<Deploy>, n: nat)
    requires SortedBy(s, At) && n <= |s|
    ensures FailureCount(s, n) <= SignalCount(s, n)
    ensures SignalCount(s, n) == FailureCount(s, n) <==> forall i :: 0 < i < n ==> !HotFix(s, i)
  {
    if n > 0 {
      SignalsAreFailures(s, n - 1);
      if n > 1 {
        assert At(s[n - 2]) <= At(s[n - 1]);
        assert HotFix(s, n - 1) <==> Signals(s, n - 1) && !IsFailing(s[n - 1]);
      }
    }
  }

  /**
   * countFailureSignals: the signalling positions of the sorted deploys, at most one a deploy. Without
   * ties it is the same for every order of the input.
   */
  method CountFailureSignals(deploys: seq<Deploy>) returns (count: nat)
    ensures count <= |deploys|
    ensures exists s :: SortedBy(s, At) && multiset(s) == multiset(deploys) && count == SignalCount(s, |s|)
    ensures NoTies(deploys, At) ==>
              forall s :: SortedBy(s, At) && multiset(s) == multiset(deploys) ==> count == SignalCount(s, |s|)
  {
    hide SortedBy, NoTies;
    var sorted := SortCopy(deploys, At);
    SameLength(sorted, deploys);
    count := 0;
    var i := 0;
    while i < |sorted|
      invariant 0 <= i <= |sorted| && count == SignalCount(sorted, i)
    {
      if IsFailing(sorted[i]) {
        count := count + 1;
      } else if i > 0 && IsSuccess(sorted[i]) && IsSuccess(sorted[i - 1]) {
        var gap := sorted[i].at - sorted[i - 1].at;
        if gap > 0 && gap < DAY_GAP { count := count + 1; }
      }
      i := i + 1;
    }
    if NoTies(deploys, At) { OnlyOneOrder(deploys, sorted); }
  }

  lemma OnlyOneOrder(deploys: seq<Deploy>, sorted: seq<Deploy>)
    requires NoTies(deploys, At) && SortedBy(sorted, At) && multiset(sorted) == multiset(deploys)
    ensures forall s :: SortedBy(s, At) && multiset(s) == multiset(deploys) ==> s == sorted
  {
    TiesPermute(deploys, sorted, At);
    forall s | SortedBy(s, At) && multiset(s) == multiset(deploys) ensures s == sorted { SortedIsUnique(sorted, s, At); }
  }
}
