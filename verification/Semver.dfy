/** Version tags: the hand-written parser, and the rework releases found with it. */
module Semver {
  import opened Sorting
  import opened Decimals

  /** atoi: a non-empty run of digits, and its value. */
  method Atoi(s: string) returns (n: nat, ok: bool)
    ensures ok <==> IsNumber(s)
    ensures if ok then n == Value(s) else n == 0
  {
    if |s| == 0 { return 0, false; }
    n := 0;
    var i := 0;
    while i < |s|
      invariant 0 <= i <= |s|
      invariant forall k :: 0 <= k < i ==> IsDigit(s[k])
      invariant n == Value(s[..i])
    {
      if !IsDigit(s[i]) { return 0, false; }
      assert s[..i + 1][..i] == s[..i];
      n := n * 10 + DigitOf(s[i]);
      i := i + 1;
    }
    assert s[..i] == s;
    ok := true;
  }

  // ---- The grammar ----

  predicate StartsSuffix(c: char) { c == '-' || c == '+' }

  predicate IsSuffix(s: string) { s == "" || StartsSuffix(s[0]) }

  /** Where the suffix starts. */
  function CoreLength(s: string): (k: nat)
    ensures k <= |s| && forall i :: 0 <= i < k ==> !StartsSuffix(s[i])
    ensures k < |s| ==> StartsSuffix(s[k])
  {
    if s == "" || StartsSuffix(s[0]) then 0 else 1 + CoreLength(s[1..])
  }

  /** The parts between the dots. */
  function Parts(s: string): (ps: seq<string>)
    ensures |ps| >= 1
  {
    var k := FirstDot(s);
    if k == |s| then [s] else [s[..k]] + Parts(s[k + 1..])
  }

  function FirstDot(s: string): (k: nat)
    ensures k <= |s| && (forall i :: 0 <= i < k ==> s[i] != '.') && (k < |s| ==> s[k] == '.')
  {
    if s == "" || s[0] == '.' then 0 else 1 + FirstDot(s[1..])
  }

  lemma FirstDotAt(s: string, k: nat)
    requires k <= |s| && (forall i :: 0 <= i < k ==> s[i] != '.') && (k < |s| ==> s[k] == '.')
    ensures FirstDot(s) == k
  {}

  predicate AllNumbers(ps: seq<string>) { forall i :: 0 <= i < |ps| ==> IsNumber(ps[i]) }

  datatype Version = Version(major: nat, minor: nat, patch: nat, suffix: string)

  function Print(v: Version): string {
    "v" + Decimal(v.major) + "." + Decimal(v.minor) + "." + Decimal(v.patch) + v.suffix
  }

  datatype Parsed = Bad | Good(version: Version)

  /** What a tag means: a "v", three numbers, and a suffix that starts at the first '-' or '+'. */
  function Meaning(s: string): Parsed {
    if s == "" || s[0] != 'v' then Bad
    else
      var k := CoreLength(s[1..]);
      var ps := Parts(s[1..][..k]);
      if |ps| == 3 && AllNumbers(ps) then Good(Version(Value(ps[0]), Value(ps[1]), Value(ps[2]), s[1..][k..])) else Bad
  }

  lemma {:induction false} CoreLengthAt(core: string, suffix: string)
    requires IsSuffix(suffix) && forall i :: 0 <= i < |core| ==> !StartsSuffix(core[i])
    ensures CoreLength(core + suffix) == |core|
  {
    if core == "" {
      assert core + suffix == suffix;
    } else {
      var s := core + suffix;
      assert s[0] == core[0] && s[1..] == core[1..] + suffix;
      CoreLengthAt(core[1..], suffix);
    }
  }

  lemma PartsCons(a: string, rest: string)
    requires IsNumber(a)
    ensures Parts(a + "." + rest) == [a] + Parts(rest)
  {
    var s := a + "." + rest;
    FirstDotAt(s, |a|);
    assert s[..|a|] == a && s[|a| + 1..] == rest;
  }

  lemma PartsLast(c: string)
    requires IsNumber(c)
    ensures Parts(c) == [c]
  {
    FirstDotAt(c, |c|);
  }

  lemma PartsOfThree(a: string, b: string, c: string)
    requires IsNumber(a) && IsNumber(b) && IsNumber(c)
    ensures Parts(a + "." + b + "." + c) == [a, b, c]
    ensures forall i :: 0 <= i < |a + "." + b + "." + c| ==> !StartsSuffix((a + "." + b + "." + c)[i])
  {
    hide Parts;
    assert a + "." + b + "." + c == a + "." + (b + "." + c);
    PartsCons(a, b + "." + c);
    PartsCons(b, c);
    PartsLast(c);
  }

  lemma MeaningOf(a: string, b: string, c: string, suffix: string)
    requires IsNumber(a) && IsNumber(b) && IsNumber(c) && IsSuffix(suffix)
    ensures Meaning("v" + a + "." + b + "." + c + suffix) == Good(Version(Value(a), Value(b), Value(c), suffix))
  {
    hide Parts, CoreLength, Value;
    var core := a + "." + b + "." + c;
    var s := "v" + a + "." + b + "." + c + suffix;
    PartsOfThree(a, b, c);
    CoreLengthAt(core, suffix);
    assert s == "v" + (core + suffix);
    assert s[0] == 'v';
    assert s[1..] == core + suffix;
    assert s[1..][..|core|] == core && s[1..][|core|..] == suffix;
  }

  /** Parsing inverts printing, for every version whose suffix is empty or starts with '-' or '+'. */
  lemma RoundTrip(v: Version)
    requires IsSuffix(v.suffix)
    ensures Meaning(Print(v)) == Good(v)
  {
    MeaningOf(Decimal(v.major), Decimal(v.minor), Decimal(v.patch), v.suffix);
  }

  lemma FirstPart(s: string)
    requires |Parts(s)| > 1
    ensures exists rest :: s == Parts(s)[0] + "." + rest && Parts(rest) == Parts(s)[1..]
  {
    var k := FirstDot(s);
    var rest := s[k + 1..];
    assert s == s[..k] + "." + rest && Parts(s) == [s[..k]] + Parts(rest);
    assert Parts(s)[0] == s[..k] && Parts(s)[1..] == Parts(rest);
  }

  lemma OnePart(s: string)
    requires |Parts(s)| == 1
    ensures Parts(s) == [s]
  {}

  lemma ThreeParts(s: string)
    requires |Parts(s)| == 3
    ensures s == Parts(s)[0] + "." + Parts(s)[1] + "." + Parts(s)[2]
  {
    hide Parts;
    FirstPart(s);
    var t :| s == Parts(s)[0] + "." + t && Parts(t) == Parts(s)[1..];
    FirstPart(t);
    var u :| t == Parts(t)[0] + "." + u && Parts(u) == Parts(t)[1..];
    OnePart(u);
    assert u == Parts(s)[2] && Parts(t)[0] == Parts(s)[1];
  }

  /** Accepted is exactly: "v", three digit runs joined by dots, then nothing or a suffix. Leading zeros are not refused. */
  lemma AcceptsExactly(s: string)
    ensures Meaning(s).Good? <==> exists a, b, c, suffix ::
              IsNumber(a) && IsNumber(b) && IsNumber(c) && IsSuffix(suffix) && s == "v" + a + "." + b + "." + c + suffix
  {
    hide Value, Parts, CoreLength, IsNumber;
    if Meaning(s).Good? {
      var k := CoreLength(s[1..]);
      var ps := Parts(s[1..][..k]);
      ThreeParts(s[1..][..k]);
      assert s == "v" + s[1..][..k] + s[1..][k..];
      assert s == "v" + ps[0] + "." + ps[1] + "." + ps[2] + s[1..][k..];
      assert IsSuffix(s[1..][k..]);
    }
    forall a, b, c, suffix | IsNumber(a) && IsNumber(b) && IsNumber(c) && IsSuffix(suffix) && s == "v" + a + "." + b + "." + c + suffix
      ensures Meaning(s).Good?
    {
      MeaningOf(a, b, c, suffix);
    }
  }

  // ---- The parser ----

  /** The pass over the core: one number a part, and exactly three of them. */
  method ParseCore(rest: string) returns (major: int, minor: int, patch: int, ok: bool)
    ensures ok <==> |Parts(rest)| == 3 && AllNumbers(Parts(rest))
    ensures ok ==> major == Number(Parts(rest)[0]) && minor == Number(Parts(rest)[1]) && patch == Number(Parts(rest)[2])
  {
    hide Value, IsNumber, IsDigit, DigitOf, Parts, Number;
    major, minor, patch := -1, -1, -1;
    ghost var ps := [];
    var cur, idx, i := 0, 0, 0;
    assert rest[0..] == rest;
    while i <= |rest|
      invariant 0 <= cur <= i <= |rest| + 1 && (i == |rest| + 1 <==> cur == |rest| + 1)
      invariant forall j :: cur <= j < i && j < |rest| ==> rest[j] != '.'
      invariant idx == |ps| && AllNumbers(ps)
      invariant Parts(rest) == if cur <= |rest| then ps + Parts(rest[cur..]) else ps
      invariant idx >= 1 ==> major == Number(ps[0])
      invariant idx >= 2 ==> minor == Number(ps[1])
      invariant idx >= 3 ==> patch == Number(ps[2])
    {
      if i == |rest| || rest[i] == '.' {
        NextPart(rest, cur, i);
        var n;
        n, ok := Atoi(rest[cur..i]);
        NumberIs(rest[cur..i]);
        if !ok {
          assert Parts(rest)[|ps|] == rest[cur..i];
          return -1, -1, -1, false;
        }
        if idx == 0 { major := n; } else if idx == 1 { minor := n; } else if idx == 2 { patch := n; }
        ps := ps + [rest[cur..i]];
        idx := idx + 1;
        cur := i + 1;
      }
      i := i + 1;
    }
    ok := idx == 3;
  }

  /** parseSemver: one pass for the suffix, one for the dots. Major is -1 for a tag that is refused. */
  method ParseSemver(s: string) returns (major: int, minor: int, patch: int, pre: string)
    ensures match Meaning(s)
            case Bad => major == minor == patch == -1 && pre == ""
            case Good(v) => major == v.major && minor == v.minor && patch == v.patch && pre == v.suffix
  {
    hide Value, IsNumber, Parts;
    if |s| == 0 || s[0] != 'v' { return -1, -1, -1, ""; }
    var rest := s[1..];
    pre := "";
    var k := 0;
    while k < |rest| && !StartsSuffix(rest[k])
      invariant 0 <= k <= |rest| && forall i :: 0 <= i < k ==> !StartsSuffix(rest[i])
    {
      k := k + 1;
    }
    assert rest == rest[..k] + rest[k..];
    CoreLengthAt(rest[..k], rest[k..]);
    if k < |rest| { pre, rest := rest[k..], rest[..k]; }
    assert rest == s[1..][..k] && pre == s[1..][k..];
    var ok;
    major, minor, patch, ok := ParseCore(rest);
    if !ok { return -1, -1, -1, ""; }
    NumberIs(Parts(rest)[0]);
    NumberIs(Parts(rest)[1]);
    NumberIs(Parts(rest)[2]);
  }

  function Number(s: string): int { if IsNumber(s) then Value(s) else -1 }

  lemma NumberIs(s: string)
    ensures IsNumber(s) ==> Number(s) == Value(s)
  {}

  /** What the part from `cur` up to the dot or the end at `i` is. */
  lemma NextPart(s: string, cur: nat, i: nat)
    requires cur <= i <= |s| && (i < |s| ==> s[i] == '.') && forall j :: cur <= j < i ==> s[j] != '.'
    ensures Parts(s[cur..]) == if i == |s| then [s[cur..i]] else [s[cur..i]] + Parts(s[i + 1..])
  {
    var t := s[cur..];
    assert t[..i - cur] == s[cur..i];
    FirstDotAt(t, i - cur);
    if i < |s| { assert t[i - cur + 1..] == s[i + 1..]; } else { assert t == s[cur..i]; }
  }

  // ---- Rework releases ----

  datatype Release = Release(tag: string, at: int)

  function At(r: Release): int { r.at }

  /** `cur` is the next patch of `prev` and no pre-release. */
  predicate PatchBump(prev: string, cur: string) {
    && Meaning(prev).Good? && Meaning(cur).Good? && Meaning(cur).version.suffix == ""
    && Meaning(cur).version.major == Meaning(prev).version.major && Meaning(cur).version.minor == Meaning(prev).version.minor
    && Meaning(cur).version.patch == Meaning(prev).version.patch + 1
  }

  method IsPatchBumpOver(prev: string, cur: string) returns (b: bool)
    ensures b <==> PatchBump(prev, cur)
  {
    hide Meaning;
    var pmaj, pmin, ppatch, ppre := ParseSemver(prev);
    var cmaj, cmin, cpatch, cpre := ParseSemver(cur);
    if pmaj < 0 || cmaj < 0 { return false; }
    if cpre != "" { return false; }
    b := cmaj == pmaj && cmin == pmin && cpatch == ppatch + 1;
  }

  /** A printed version is a patch bump over another exactly if it is its next stable patch. */
  lemma PatchBumpOfPrinted(p: Version, c: Version)
    requires IsSuffix(p.suffix) && IsSuffix(c.suffix)
    ensures PatchBump(Print(p), Print(c)) <==> c == Version(p.major, p.minor, p.patch + 1, "")
  {
    hide Meaning, Print;
    RoundTrip(p);
    RoundTrip(c);
  }

  const WEEK := 7 * 24 * 3600

  predicate Rework(prev: Release, cur: Release) { PatchBump(prev.tag, cur.tag) && 0 < cur.at - prev.at <= WEEK }

  /** Adjacent pairs among the first `n` releases that are reworks. */
  function ReworkCount(s: seq<Release>, n: nat): (c: nat)
    requires n <= |s|
    ensures n > 0 ==> c <= n - 1
    ensures n == 0 ==> c == 0
  {
    if n <= 1 then 0 else ReworkCount(s, n - 1) + (if Rework(s[n - 2], s[n - 1]) then 1 else 0)
  }

  /** countReworkReleases: adjacent pairs in time, at most one fewer than there are releases, whatever order they came in. */
  method CountReworkReleases(releases: seq<Release>) returns (count: nat)
    ensures |releases| > 0 ==> count <= |releases| - 1
    ensures |releases| == 0 ==> count == 0
    ensures exists s :: SortedBy(s, At) && multiset(s) == multiset(releases) && count == ReworkCount(s, |s|)
    ensures NoTies(releases, At) ==>
              forall s :: SortedBy(s, At) && multiset(s) == multiset(releases) ==> count == ReworkCount(s, |s|)
  {
    hide PatchBump;
    var sorted := SortCopy(releases, At);
    SameLength(sorted, releases);
    count := 0;
    var i := 1;
    while i < |sorted|
      invariant 1 <= i && (|sorted| > 0 ==> i <= |sorted| && count == ReworkCount(sorted, i)) && (|sorted| == 0 ==> count == 0)
    {
      var bump := IsPatchBumpOver(sorted[i - 1].tag, sorted[i].tag);
      if bump {
        var gap := sorted[i].at - sorted[i - 1].at;
        if gap > 0 && gap <= WEEK { count := count + 1; }
      }
      i := i + 1;
    }
    if NoTies(releases, At) {
      TiesPermute(releases, sorted, At);
      forall s | SortedBy(s, At) && multiset(s) == multiset(releases) ensures s == sorted { SortedIsUnique(sorted, s, At); }
    }
  }
}
