/**
 Which version edits the admission webhook lets through: IsValidUpgradePath of
 api/v1alpha1/common_types.go and its variant in api/v1beta1/common_types.go, over an
 arbitrary list of supported versions.
 */
module VersionPath {
  import opened Text
  import opened Permutations
  import opened VersionText

  datatype Api = V1alpha1 | V1beta1

  /** The reasons carry the versions that the error texts name. */
  datatype Verdict =
    | Allowed
    | FromUnsupported
    | ToUnsupported
    | Unparsable
    | MajorChange
    | MajorStep(last: int, first: int)
    | NotInSequence
    | Downgrade
    | MinorSkip(through: int)

  /** The minors listed for a major, in declaration order; unreadable entries are passed over. */
  function Minors(vs: seq<Version>, major: int): seq<int> {
    if vs == [] then []
    else
      var v := vs[|vs| - 1];
      Minors(vs[..|vs| - 1], major) + (if v.Version? && v.major == major then [v.minor] else [])
  }

  function Insert(s: seq<int>, x: int): seq<int> {
    if s == [] || s[|s| - 1] <= x then s + [x] else Insert(s[..|s| - 1], x) + [s[|s| - 1]]
  }

  /** sort.Ints. */
  function SortInts(s: seq<int>): seq<int> {
    if s == [] then [] else Insert(SortInts(s[..|s| - 1]), s[|s| - 1])
  }

  /** The index the scan is left with: the last occurrence, or -1. */
  function LastIndex(s: seq<int>, x: int): (i: int)
    ensures -1 <= i < |s|
    ensures i >= 0 ==> s[i] == x
    ensures forall j | i < j < |s| :: s[j] != x
  {
    if s == [] then -1
    else if s[|s| - 1] == x then |s| - 1
    else LastIndex(s[..|s| - 1], x)
  }

  /** checkMajorStep: only from the last minor of one major to the first of the next. */
  function CheckMajorStep(vs: seq<Version>, f: Version, t: Version): Verdict
    requires f.Version? && t.Version?
  {
    var last, first := SortInts(Minors(vs, f.major)), SortInts(Minors(vs, t.major));
    if t.major != f.major + 1 then MajorChange
    else if last == [] || first == [] then NotInSequence
    else if f.minor != last[|last| - 1] || t.minor != first[0] then MajorStep(last[|last| - 1], first[0])
    else Allowed
  }

  function CheckMinorStep(minors: seq<int>, f: int, t: int): Verdict {
    var i, j := LastIndex(minors, f), LastIndex(minors, t);
    if i < 0 || j < 0 then NotInSequence
    else if j - i > 1 then MinorSkip(minors[i + 1])
    else Allowed
  }

  /** The verdict on two readable versions; only v1alpha1 sorts the minors it scans. */
  function Decide(api: Api, vs: seq<Version>, f: Version, t: Version): Verdict
    requires f.Version? && t.Version?
  {
    var minors := Minors(vs, f.major);
    if t.major != f.major then CheckMajorStep(vs, f, t)
    else if t.minor < f.minor then Downgrade
    else CheckMinorStep(if api.V1alpha1? then SortInts(minors) else minors, f.minor, t.minor)
  }

  /** IsSupportedMongoDBVersion: the first two pieces, both non-empty, name a supported entry. */
  predicate IsSupported(list: seq<string>, v: string) {
    var parts := Split(v, '.');
    |parts| >= 2 && parts[0] != "" && parts[1] != "" && parts[0] + "." + parts[1] in list
  }

  function ParseAll(list: seq<string>): (vs: seq<Version>)
    ensures |vs| == |list| && forall i | 0 <= i < |list| :: vs[i] == Parse(list[i])
  {
    seq(|list|, i requires 0 <= i < |list| => Parse(list[i]))
  }

  function CheckPath(api: Api, list: seq<string>, from: string, to: string): Verdict {
    if from == to then Allowed
    else if !IsSupported(list, from) then FromUnsupported
    else if !IsSupported(list, to) then ToUnsupported
    else if Parse(from).Unparsed? || Parse(to).Unparsed? then Unparsable
    else Decide(api, ParseAll(list), Parse(from), Parse(to))
  }

  // ---------------------------------------------------------------- the loops

  lemma MinorsSnoc(vs: seq<Version>, k: nat, major: int)
    requires k < |vs|
    ensures Minors(vs[..k + 1], major) ==
            Minors(vs[..k], major) + (if vs[k].Version? && vs[k].major == major then [vs[k].minor] else [])
  {
    assert vs[..k + 1][..k] == vs[..k];
  }

  method SupportedMinors(list: seq<string>, major: int, sorted: bool) returns (minors: seq<int>)
    ensures minors == if sorted then SortInts(Minors(ParseAll(list), major)) else Minors(ParseAll(list), major)
  {
    minors := [];
    ghost var vs := ParseAll(list);
    for k := 0 to |list|
      invariant minors == Minors(vs[..k], major)
    {
      var v := ParseMongoVersion(list[k]);
      assert v == vs[k];
      MinorsSnoc(vs, k, major);
      if v.Version? && v.major == major {
        minors := minors + [v.minor];
      }
    }
    assert vs[..|list|] == vs;
    if sorted {
      minors := SortInts(minors);
    }
  }

  method MajorStepLoop(list: seq<string>, f: Version, t: Version) returns (r: Verdict)
    requires f.Version? && t.Version?
    ensures r == CheckMajorStep(ParseAll(list), f, t)
  {
    if t.major != f.major + 1 { return MajorChange; }
    var last := SupportedMinors(list, f.major, true);
    var first := SupportedMinors(list, t.major, true);
    if |last| == 0 || |first| == 0 { return NotInSequence; }
    var lastMinor := last[|last| - 1];
    if f.minor != lastMinor || t.minor != first[0] { return MajorStep(lastMinor, first[0]); }
    return Allowed;
  }

  method MinorStepLoop(supported: seq<int>, f: int, t: int) returns (r: Verdict)
    ensures r == CheckMinorStep(supported, f, t)
  {
    var fromIdx, toIdx := -1, -1;
    for i := 0 to |supported|
      invariant fromIdx == LastIndex(supported[..i], f)
      invariant toIdx == LastIndex(supported[..i], t)
    {
      assert supported[..i + 1][..i] == supported[..i];
      if supported[i] == f { fromIdx := i; }
      if supported[i] == t { toIdx := i; }
    }
    assert supported[..|supported|] == supported;
    if fromIdx < 0 || toIdx < 0 { return NotInSequence; }
    if toIdx - fromIdx > 1 { return MinorSkip(supported[fromIdx + 1]); }
    return Allowed;
  }

  /** IsValidUpgradePath of either API version. */
  method IsValidUpgradePath(api: Api, list: seq<string>, from: string, to: string) returns (r: Verdict)
    ensures r == CheckPath(api, list, from, to)
  {
    if from == to { return Allowed; }
    if !IsSupported(list, from) { return FromUnsupported; }
    if !IsSupported(list, to) { return ToUnsupported; }
    var f := ParseMongoVersion(from);
    var t := ParseMongoVersion(to);
    if f.Unparsed? || t.Unparsed? { return Unparsable; }
    if t.major != f.major {
      r := MajorStepLoop(list, f, t);
    } else if t.minor < f.minor {
      r := Downgrade;
    } else {
      var supported := SupportedMinors(list, f.major, api.V1alpha1?);
      r := MinorStepLoop(supported, f.minor, t.minor);
    }
  }

  // ---------------------------------------------------------------- sorting

  ghost predicate Sorted(s: seq<int>) {
    forall i, j | 0 <= i < j < |s| :: s[i] <= s[j]
  }

  ghost predicate Distinct(s: seq<int>) {
    forall i, j | 0 <= i < j < |s| :: s[i] != s[j]
  }

  lemma {:induction false} InsertContents(s: seq<int>, x: int)
    ensures multiset(Insert(s, x)) == multiset(s) + multiset{x}
    ensures |Insert(s, x)| == |s| + 1
  {
    if s != [] && s[|s| - 1] > x {
      InsertContents(s[..|s| - 1], x);
      assert s == s[..|s| - 1] + [s[|s| - 1]];
    }
  }

  lemma {:induction false} InsertSorted(s: seq<int>, x: int)
    requires Sorted(s)
    ensures Sorted(Insert(s, x))
    ensures forall k | 0 <= k < |Insert(s, x)| :: Insert(s, x)[k] <= x || (s != [] && Insert(s, x)[k] <= s[|s| - 1])
  {
    if s != [] && s[|s| - 1] > x {
      InsertSorted(s[..|s| - 1], x);
    }
  }

  lemma {:induction false} SortContents(s: seq<int>)
    ensures multiset(SortInts(s)) == multiset(s) && Sorted(SortInts(s)) && |SortInts(s)| == |s|
  {
    if s != [] {
      var front, last := s[..|s| - 1], s[|s| - 1];
      SortContents(front);
      InsertContents(SortInts(front), last);
      InsertSorted(SortInts(front), last);
      assert s == front + [last];
    }
  }

  lemma SameContents(a: seq<int>, b: seq<int>, x: int)
    requires multiset(a) == multiset(b)
    ensures x in a <==> x in b
  {
    assert x in a <==> x in multiset(a);
    assert x in b <==> x in multiset(b);
  }

  lemma SortMembers(s: seq<int>, x: int)
    ensures x in SortInts(s) <==> x in s
  {
    SortContents(s);
    SameContents(SortInts(s), s, x);
  }

  /** Sorting leaves only one order: sorted sequences with equal contents are equal. */
  lemma {:induction false} SortedUnique(a: seq<int>, b: seq<int>)
    requires Sorted(a) && Sorted(b) && |a| == |b| && multiset(a) == multiset(b)
    ensures a == b
  {
    if a != [] {
      var x, y := a[|a| - 1], b[|b| - 1];
      SameContents(a, b, x);
      SameContents(a, b, y);
      assert x == y;
      CutLast(a);
      CutLast(b);
      SortedUnique(a[..|a| - 1], b[..|b| - 1]);
      assert a == a[..|a| - 1] + [x] && b == b[..|b| - 1] + [y];
    }
  }

  lemma CountTwo(s: seq<int>, x: int, i: nat, j: nat)
    requires i < j < |s| && s[i] == x && s[j] == x
    ensures multiset(s)[x] >= 2
  {
    assert s == s[..j] + s[j..];
    assert s[..j][i] == x && s[j..][0] == x;
    assert x in multiset(s[..j]) && x in multiset(s[j..]);
  }

  lemma CountOne(s: seq<int>, x: int, j: nat)
    requires j < |s| && s[j] == x && forall k | 0 <= k < |s| && k != j :: s[k] != x
    ensures multiset(s)[x] == 1
  {
    assert s == s[..j] + [s[j]] + s[j + 1..];
    assert x !in multiset(s[..j]) && x !in multiset(s[j + 1..]);
  }

  lemma SortKeepsDistinct(u: seq<int>)
    requires Distinct(u)
    ensures Distinct(SortInts(u))
  {
    var s := SortInts(u);
    SortContents(u);
    forall i, j | 0 <= i < j < |s| ensures s[i] != s[j] {
      if s[i] == s[j] {
        CountTwo(s, s[i], i, j);
        SortMembers(u, s[i]);
        var k :| 0 <= k < |u| && u[k] == s[i];
        CountOne(u, s[i], k);
      }
    }
  }

  // ---------------------------------------------------------------- the supported versions

  ghost predicate Known(vs: seq<Version>, v: Version) {
    v.Version? && v in vs
  }

  lemma {:induction false} MinorsAreKnown(vs: seq<Version>, major: int, minor: int)
    ensures minor in Minors(vs, major) <==> Known(vs, Version(major, minor))
  {
    if vs != [] {
      var n := |vs| - 1;
      MinorsAreKnown(vs[..n], major, minor);
      assert vs == vs[..n] + [vs[n]];
    }
  }

  lemma SupportedIsKnown(list: seq<string>, v: string)
    requires IsSupported(list, v) && Parse(v).Version?
    ensures Known(ParseAll(list), Parse(v))
  {
    var parts := Split(v, '.');
    SplitIsFree(v, '.');
    var a, b := parts[0], parts[1];
    TwoPieces(a, b, "");
    assert a + "." + b + "" == a + "." + b;
    var mm := SplitVersion(a + "." + b);
    assert mm[0] == mm[..2][0] == a && mm[1] == mm[..2][1] == b;
    assert SplitVersion(v)[0] == a && SplitVersion(v)[1] == b;
    var i :| 0 <= i < |list| && list[i] == a + "." + b;
    assert ParseAll(list)[i] == Parse(v);
  }

  predicate Before(a: Version, b: Version)
    requires a.Version? && b.Version?
  {
    a.major < b.major || (a.major == b.major && a.minor < b.minor)
  }

  predicate AtMost(a: Version, b: Version)
    requires a.Version? && b.Version?
  {
    a == b || Before(a, b)
  }

  /** `t` is the supported version that comes right after `f`. */
  ghost predicate Next(vs: seq<Version>, f: Version, t: Version)
    requires f.Version? && t.Version?
  {
    && Known(vs, t) && Before(f, t)
    && forall u: Version | Known(vs, u) :: !(Before(f, u) && Before(u, t))
  }

  ghost predicate Once(vs: seq<Version>, v: Version)
    requires v.Version?
  {
    multiset(vs)[v] == 1
  }

  ghost predicate StepOk(vs: seq<Version>, f: Version, t: Version)
    requires f.Version? && t.Version?
  {
    || t == f
    || (Next(vs, f, t) && t.major <= f.major + 1 && (t.major == f.major ==> Once(vs, t)))
  }

  // ---------------------------------------------------------------- what is accepted

  /** On sorted minors, an index distance of at most one means: equal, or next and listed once. */
  lemma AdjacentIff(s: seq<int>, m: int, n: int)
    requires Sorted(s) && m in s && n in s && m < n
    ensures LastIndex(s, n) - LastIndex(s, m) <= 1 <==>
            (forall k | k in s :: !(m < k < n)) && multiset(s)[n] == 1
  {
    var i, j := LastIndex(s, m), LastIndex(s, n);
    assert i < j;
    if j == i + 1 {
      CountOne(s, n, j);
    } else {
      assert s[i + 1] in s && m < s[i + 1] <= n;
      if s[i + 1] == n { CountTwo(s, n, i + 1, j); }
    }
  }

  /** Within a major, "next supported version" is a gap-free pair of listed minors. */
  lemma NextIff(vs: seq<Version>, f: Version, t: Version)
    requires Known(vs, f) && Known(vs, t) && f.major == t.major && f.minor < t.minor
    ensures Next(vs, f, t) <==> forall k | k in Minors(vs, f.major) :: !(f.minor < k < t.minor)
  {
    if Next(vs, f, t) {
      forall k | k in Minors(vs, f.major) ensures !(f.minor < k < t.minor) {
        MinorsAreKnown(vs, f.major, k);
        assert Known(vs, Version(f.major, k));
      }
    } else {
      var v: Version :| Known(vs, v) && Before(f, v) && Before(v, t);
      MinorsAreKnown(vs, f.major, v.minor);
    }
  }

  /** The scan accepts two minors it has seen when their places are at most one apart. */
  lemma ScanDistance(s: seq<int>, m: int, n: int)
    requires m in s && n in s
    ensures CheckMinorStep(s, m, n).Allowed? <==> LastIndex(s, n) - LastIndex(s, m) <= 1
  {
  }

  lemma SortSameMembers(u: seq<int>)
    ensures forall k: int :: k in SortInts(u) <==> k in u
  {
    forall k: int ensures k in SortInts(u) <==> k in u {
      SortMembers(u, k);
    }
  }

  lemma SortedScanIff(u: seq<int>, m: int, n: int)
    requires m in u && n in u && m < n
    ensures CheckMinorStep(SortInts(u), m, n).Allowed? <==>
            (forall k | k in u :: !(m < k < n)) && multiset(u)[n] == 1
  {
    var s := SortInts(u);
    SortContents(u);
    SortSameMembers(u);
    ScanDistance(s, m, n);
    AdjacentIff(s, m, n);
    assert (forall k | k in u :: !(m < k < n)) <==> (forall k | k in s :: !(m < k < n));
  }

  lemma MinorStepIff(vs: seq<Version>, f: Version, t: Version)
    requires Known(vs, f) && Known(vs, t) && f.major == t.major && f.minor < t.minor
    ensures CheckMinorStep(SortInts(Minors(vs, f.major)), f.minor, t.minor).Allowed? <==> StepOk(vs, f, t)
  {
    MinorsAreKnown(vs, f.major, f.minor);
    MinorsAreKnown(vs, f.major, t.minor);
    SortedScanIff(Minors(vs, f.major), f.minor, t.minor);
    MinorsCount(vs, f.major, t.minor);
    NextIff(vs, f, t);
  }

  lemma SortedEnds(u: seq<int>, x: int)
    requires x in u
    ensures var s := SortInts(u); s != [] && s[0] in u && s[|s| - 1] in u && s[0] <= x <= s[|s| - 1]
  {
    var s := SortInts(u);
    SortContents(u);
    SortMembers(u, x);
    SortMembers(u, s[0]);
    SortMembers(u, s[|s| - 1]);
  }

  /** The first and the last listed version of a major. */
  function First(vs: seq<Version>, major: int): Version
    requires SortInts(Minors(vs, major)) != []
  {
    Version(major, SortInts(Minors(vs, major))[0])
  }

  function Last(vs: seq<Version>, major: int): Version
    requires SortInts(Minors(vs, major)) != []
  {
    var s := SortInts(Minors(vs, major));
    Version(major, s[|s| - 1])
  }

  lemma MajorEnds(vs: seq<Version>, v: Version)
    requires Known(vs, v)
    ensures SortInts(Minors(vs, v.major)) != []
    ensures Known(vs, First(vs, v.major)) && Known(vs, Last(vs, v.major))
    ensures AtMost(First(vs, v.major), v) && AtMost(v, Last(vs, v.major))
  {
    var u := Minors(vs, v.major);
    MinorsAreKnown(vs, v.major, v.minor);
    SortedEnds(u, v.minor);
    MinorsAreKnown(vs, v.major, First(vs, v.major).minor);
    MinorsAreKnown(vs, v.major, Last(vs, v.major).minor);
  }

  /** From the last version of a major to the first of the next nothing lies in between, and only there. */
  lemma EndsAreNext(vs: seq<Version>, f: Version, t: Version)
    requires Known(vs, f) && Known(vs, t) && t.major == f.major + 1
    ensures SortInts(Minors(vs, f.major)) != [] && SortInts(Minors(vs, t.major)) != []
    ensures Next(vs, f, t) <==> f == Last(vs, f.major) && t == First(vs, t.major)
  {
    MajorEnds(vs, f);
    MajorEnds(vs, t);
    if f == Last(vs, f.major) && t == First(vs, t.major) {
      forall v: Version | Known(vs, v) ensures !(Before(f, v) && Before(v, t)) {
        MajorEnds(vs, v);
      }
    }
  }

  lemma MajorStepIff(vs: seq<Version>, f: Version, t: Version)
    requires Known(vs, f) && Known(vs, t) && f.major != t.major
    ensures CheckMajorStep(vs, f, t).Allowed? <==> StepOk(vs, f, t)
  {
    if t.major == f.major + 1 {
      EndsAreNext(vs, f, t);
    }
  }

  lemma DecideIff(vs: seq<Version>, f: Version, t: Version)
    requires Known(vs, f) && Known(vs, t)
    ensures Decide(V1alpha1, vs, f, t).Allowed? <==> StepOk(vs, f, t)
  {
    if f.major != t.major {
      MajorStepIff(vs, f, t);
    } else if f.minor < t.minor {
      MinorStepIff(vs, f, t);
    } else if f == t {
      MinorsAreKnown(vs, f.major, f.minor);
      SortMembers(Minors(vs, f.major), f.minor);
    }
  }

  ghost predicate Readable(list: seq<string>, v: string) {
    IsSupported(list, v) && Parse(v).Version?
  }

  /**
   What the v1alpha1 check lets through, for any list at all: an unchanged string, or two
   supported, readable versions of which the second is the same major.minor or the very next
   supported one (at most one major up, and listed once when the major stays).
   */
  lemma AllowedIff(list: seq<string>, from: string, to: string)
    ensures CheckPath(V1alpha1, list, from, to).Allowed? <==>
            || from == to
            || (Readable(list, from) && Readable(list, to) && StepOk(ParseAll(list), Parse(from), Parse(to)))
  {
    if from != to && Readable(list, from) && Readable(list, to) {
      SupportedIsKnown(list, from);
      SupportedIsKnown(list, to);
      DecideIff(ParseAll(list), Parse(from), Parse(to));
    }
  }

  // ---------------------------------------------------------------- what a refusal says

  /** A version is supported when its first two dot-separated pieces, both non-empty, make a listed entry. */
  lemma SupportedMeans(list: seq<string>, v: string, major: string, minor: string, rest: string)
    requires '.' !in major && '.' !in minor && (rest == "" || rest[0] == '.') && v == major + "." + minor + rest
    ensures IsSupported(list, v) <==> major != "" && minor != "" && major + "." + minor in list
  {
    SplitTwo(major, minor, rest);
  }

  /** A string without a dot is not. */
  lemma UndottedIsUnsupported(list: seq<string>, v: string)
    requires '.' !in v
    ensures !IsSupported(list, v)
  {
    SplitFree(v, '.');
  }

  /** The scan reports a version out of sequence exactly when it has not seen one of the two. */
  lemma NotInSequenceIff(s: seq<int>, m: int, n: int)
    ensures CheckMinorStep(s, m, n).NotInSequence? <==> m !in s || n !in s
  {
  }

  /** The minor after the last occurrence of `m` in sorted minors is the next larger one. */
  lemma NextMinor(s: seq<int>, m: int, n: int)
    requires Sorted(s) && m in s && n in s && m < n && LastIndex(s, n) - LastIndex(s, m) > 1
    ensures var x := s[LastIndex(s, m) + 1]; m < x <= n && x in s && forall k | k in s :: !(m < k < x)
  {
    var i := LastIndex(s, m);
    assert s[i + 1] in s;
    forall k | k in s ensures !(m < k < s[i + 1]) {
      var j :| 0 <= j < |s| && s[j] == k;
    }
  }

  lemma SkipScan(s: seq<int>, m: int, n: int, x: int)
    requires Sorted(s) && m in s && n in s && m <= n && CheckMinorStep(s, m, n) == MinorSkip(x)
    ensures m < x <= n && x in s && forall k | k in s :: !(m < k < x)
  {
    NextMinor(s, m, n);
  }

  /** The version a minor skip names is the one to upgrade to first. */
  lemma SkipNamesNext(vs: seq<Version>, f: Version, t: Version, m: int)
    requires Known(vs, f) && Known(vs, t) && Decide(V1alpha1, vs, f, t) == MinorSkip(m)
    ensures f.major == t.major && f.minor < m <= t.minor
    ensures Known(vs, Version(f.major, m)) && Next(vs, f, Version(f.major, m))
  {
    assert f.major == t.major && f.minor <= t.minor;
    var u := Minors(vs, f.major);
    SortContents(u);
    SortSameMembers(u);
    MinorsAreKnown(vs, f.major, f.minor);
    MinorsAreKnown(vs, f.major, t.minor);
    MinorVerdict(V1alpha1, vs, f.major, f.minor, t.minor);
    SkipScan(SortInts(u), f.minor, t.minor, m);
    MinorsAreKnown(vs, f.major, m);
    NextIff(vs, f, Version(f.major, m));
  }

  /** With no version listed twice it lies strictly between the two, and the edit to it is accepted. */
  lemma SkipIsAvoidable(vs: seq<Version>, f: Version, t: Version, m: int)
    requires Known(vs, f) && Known(vs, t) && Decide(V1alpha1, vs, f, t) == MinorSkip(m)
    requires forall v: Version | Known(vs, v) :: Once(vs, v)
    ensures Before(f, Version(f.major, m)) && Before(Version(f.major, m), t)
    ensures Decide(V1alpha1, vs, f, Version(f.major, m)).Allowed?
  {
    SkipNamesNext(vs, f, t, m);
    DecideIff(vs, f, Version(f.major, m));
    if m == t.minor { DecideIff(vs, f, t); }
  }

  lemma MajorStepPayload(vs: seq<Version>, f: Version, t: Version, last: int, first: int)
    requires Known(vs, f) && Known(vs, t) && Decide(V1alpha1, vs, f, t) == MajorStep(last, first)
    ensures t.major == f.major + 1
    ensures SortInts(Minors(vs, f.major)) != [] && SortInts(Minors(vs, t.major)) != []
    ensures Version(f.major, last) == Last(vs, f.major) && Version(t.major, first) == First(vs, t.major)
  {
  }

  /** The versions a refused major step names: the last of the one major and the first of the other. */
  lemma MajorStepNamesEnds(vs: seq<Version>, f: Version, t: Version, last: int, first: int)
    requires Known(vs, f) && Known(vs, t) && Decide(V1alpha1, vs, f, t) == MajorStep(last, first)
    ensures t.major == f.major + 1 && Known(vs, Version(f.major, last)) && Known(vs, Version(t.major, first))
    ensures forall v: Version | Known(vs, v) && v.major == f.major :: v.minor <= last
    ensures forall v: Version | Known(vs, v) && v.major == t.major :: first <= v.minor
    ensures Next(vs, Version(f.major, last), Version(t.major, first))
  {
    MajorStepPayload(vs, f, t, last, first);
    MajorEnds(vs, f);
    MajorEnds(vs, t);
    forall v: Version | Known(vs, v) && v.major == f.major ensures v.minor <= last { MajorEnds(vs, v); }
    forall v: Version | Known(vs, v) && v.major == t.major ensures first <= v.minor { MajorEnds(vs, v); }
    EndsAreNext(vs, Version(f.major, last), Version(t.major, first));
  }

  /** Each refusal has its own cause: what is wrong with the step from `f` to `t`, in this order. */
  lemma RefusalCauses(vs: seq<Version>, f: Version, t: Version)
    requires Known(vs, f) && Known(vs, t)
    ensures var d := Decide(V1alpha1, vs, f, t);
            && (d.MajorChange? <==> t.major != f.major && t.major != f.major + 1)
            && (d.MajorStep? <==> t.major == f.major + 1 && !Next(vs, f, t))
            && (d.Downgrade? <==> t.major == f.major && t.minor < f.minor)
            && (d.MinorSkip? <==> t.major == f.major && f.minor < t.minor && !StepOk(vs, f, t))
            && !d.NotInSequence? && !d.FromUnsupported? && !d.ToUnsupported? && !d.Unparsable?
  {
    DecideIff(vs, f, t);
    if t.major == f.major + 1 {
      EndsAreNext(vs, f, t);
    } else if t.major == f.major {
      MinorsAreKnown(vs, f.major, f.minor);
      MinorsAreKnown(vs, f.major, t.minor);
      SortSameMembers(Minors(vs, f.major));
    }
  }

  /** The whole check: the first of the two versions that is not supported is the one complained about. */
  lemma CheckCauses(list: seq<string>, from: string, to: string)
    requires from != to
    ensures var d := CheckPath(V1alpha1, list, from, to);
            && (d.FromUnsupported? <==> !IsSupported(list, from))
            && (d.ToUnsupported? <==> IsSupported(list, from) && !IsSupported(list, to))
            && (d.Unparsable? <==>
                IsSupported(list, from) && IsSupported(list, to) && !(Parse(from).Version? && Parse(to).Version?))
            && (Readable(list, from) && Readable(list, to) ==>
                  d == Decide(V1alpha1, ParseAll(list), Parse(from), Parse(to)))
  {
    if Readable(list, from) && Readable(list, to) {
      SupportedIsKnown(list, from);
      SupportedIsKnown(list, to);
      RefusalCauses(ParseAll(list), Parse(from), Parse(to));
    }
  }

  // ---------------------------------------------------------------- sequences of edits

  ghost predicate Accepted(list: seq<string>, edits: seq<string>) {
    forall i | 0 < i < |edits| :: CheckPath(V1alpha1, list, edits[i - 1], edits[i]).Allowed?
  }

  /** Each step stays put or goes to the next supported version. */
  ghost predicate Climbs(vs: seq<Version>, path: seq<Version>) {
    && (forall i | 0 <= i < |path| :: path[i].Version?)
    && (forall i | 0 < i < |path| :: path[i] == path[i - 1] || Next(vs, path[i - 1], path[i]))
  }

  lemma {:induction false} ClimbVisitsAll(vs: seq<Version>, path: seq<Version>, u: Version)
    requires |path| >= 1 && Climbs(vs, path) && Known(vs, u)
    requires AtMost(path[0], u) && AtMost(u, path[|path| - 1])
    ensures u in path
  {
    var n := |path| - 1;
    if n > 0 && path[n] != u {
      assert path[n] == path[n - 1] || Next(vs, path[n - 1], path[n]);
      assert AtMost(u, path[n - 1]);
      ClimbVisitsAll(vs, path[..n], u);
    }
  }

  lemma {:induction false} ClimbNeverFalls(vs: seq<Version>, path: seq<Version>, i: nat, j: nat)
    requires Climbs(vs, path) && i <= j < |path|
    ensures AtMost(path[i], path[j])
    decreases j
  {
    if i < j {
      ClimbNeverFalls(vs, path, i, j - 1);
      assert path[j] == path[j - 1] || Next(vs, path[j - 1], path[j]);
    }
  }

  lemma AcceptedStep(list: seq<string>, from: string, to: string)
    requires Readable(list, from) && CheckPath(V1alpha1, list, from, to).Allowed?
    ensures Readable(list, to)
    ensures Parse(to) == Parse(from) || Next(ParseAll(list), Parse(from), Parse(to))
  {
    AllowedIff(list, from, to);
  }

  lemma {:induction false} AcceptedReadable(list: seq<string>, edits: seq<string>, i: nat)
    requires i < |edits| && Readable(list, edits[0]) && Accepted(list, edits)
    ensures Readable(list, edits[i])
  {
    if i > 0 {
      AcceptedReadable(list, edits, i - 1);
      AcceptedStep(list, edits[i - 1], edits[i]);
    }
  }

  lemma AcceptedClimbs(list: seq<string>, edits: seq<string>)
    requires |edits| >= 1 && Readable(list, edits[0]) && Accepted(list, edits)
    ensures Climbs(ParseAll(list), ParseAll(edits))
  {
    var path := ParseAll(edits);
    forall i | 0 <= i < |path| ensures path[i].Version? {
      AcceptedReadable(list, edits, i);
    }
    forall i | 0 < i < |path| ensures path[i] == path[i - 1] || Next(ParseAll(list), path[i - 1], path[i]) {
      AcceptedReadable(list, edits, i - 1);
      AcceptedStep(list, edits[i - 1], edits[i]);
    }
  }

  /**
   Along any sequence of accepted edits from a supported version, major.minor never goes
   down, and every supported version between the first and the last one is visited, so none
   is ever jumped over.
   */
  lemma EditsVisitInOrder(list: seq<string>, edits: seq<string>)
    requires |edits| >= 1 && Readable(list, edits[0]) && Accepted(list, edits)
    ensures forall i | 0 <= i < |edits| :: Readable(list, edits[i])
    ensures var path := ParseAll(edits);
            && (forall i | 0 <= i < |path| :: path[i].Version?)
            && (forall i, j | 0 <= i <= j < |path| :: AtMost(path[i], path[j]))
            && (forall u | Known(ParseAll(list), u) && AtMost(path[0], u) && AtMost(u, path[|path| - 1]) :: u in path)
  {
    AcceptedClimbs(list, edits);
    forall i | 0 <= i < |edits| ensures Readable(list, edits[i]) {
      AcceptedReadable(list, edits, i);
    }
    var vs, path := ParseAll(list), ParseAll(edits);
    forall i, j | 0 <= i <= j < |path| ensures AtMost(path[i], path[j]) {
      ClimbNeverFalls(vs, path, i, j);
    }
    forall u | Known(vs, u) && AtMost(path[0], u) && AtMost(u, path[|path| - 1]) ensures u in path {
      ClimbVisitsAll(vs, path, u);
    }
  }

  // ---------------------------------------------------------------- declaration order

  lemma CountSnoc<T>(s: seq<T>, x: T, y: T)
    ensures multiset(s + [x])[y] == multiset(s)[y] + (if x == y then 1 else 0)
  {
  }

  /** A minor is scanned as often as its version is listed. */
  lemma {:induction false} MinorsCount(vs: seq<Version>, major: int, minor: int)
    ensures multiset(Minors(vs, major))[minor] == multiset(vs)[Version(major, minor)]
  {
    if vs != [] {
      var front, v := vs[..|vs| - 1], vs[|vs| - 1];
      MinorsCount(front, major, minor);
      assert vs == front + [v];
      CountSnoc(front, v, Version(major, minor));
      if v.Version? && v.major == major {
        CountSnoc(Minors(front, major), v.minor, minor);
      }
    }
  }

  lemma MinorsPermute(a: seq<Version>, b: seq<Version>, major: int)
    requires multiset(a) == multiset(b)
    ensures multiset(Minors(a, major)) == multiset(Minors(b, major))
  {
    forall minor: int ensures multiset(Minors(a, major))[minor] == multiset(Minors(b, major))[minor] {
      MinorsCount(a, major, minor);
      MinorsCount(b, major, minor);
    }
  }

  function MapAll<T, U>(f: T -> U, a: seq<T>): (r: seq<U>)
    ensures |r| == |a| && forall i | 0 <= i < |a| :: r[i] == f(a[i])
  {
    seq(|a|, i requires 0 <= i < |a| => f(a[i]))
  }

  lemma MapCut<T, U>(f: T -> U, b: seq<T>, k: nat)
    requires k < |b|
    ensures multiset(MapAll(f, b)) == multiset(MapAll(f, b[..k] + b[k + 1..])) + multiset{f(b[k])}
  {
    var m := MapAll(f, b);
    CutAt(m, k);
    assert m[k] in multiset(m);
    assert MapAll(f, b[..k] + b[k + 1..]) == m[..k] + m[k + 1..];
  }

  lemma {:induction false} MapPermute<T, U>(f: T -> U, a: seq<T>, b: seq<T>)
    requires |a| == |b| && multiset(a) == multiset(b)
    ensures multiset(MapAll(f, a)) == multiset(MapAll(f, b))
  {
    if a != [] {
      var n := |a| - 1;
      var k := Locate(a, b);
      CutBoth(a, n, b, k);
      var x, y := a[..n] + a[n + 1..], b[..k] + b[k + 1..];
      MapPermute(f, x, y);
      assert multiset(MapAll(f, a)) == multiset(MapAll(f, x)) + multiset{f(a[n])} by { MapCut(f, a, n); }
      assert multiset(MapAll(f, b)) == multiset(MapAll(f, y)) + multiset{f(b[k])} by { MapCut(f, b, k); }
    }
  }

  lemma ParsePermute(a: seq<string>, b: seq<string>)
    requires |a| == |b| && multiset(a) == multiset(b)
    ensures multiset(ParseAll(a)) == multiset(ParseAll(b))
  {
    assert ParseAll(a) == MapAll(Parse, a) && ParseAll(b) == MapAll(Parse, b);
    MapPermute(Parse, a, b);
  }

  lemma SortPermute(a: seq<Version>, b: seq<Version>, major: int)
    requires |a| == |b| && multiset(a) == multiset(b)
    ensures SortInts(Minors(a, major)) == SortInts(Minors(b, major))
  {
    var u, w := Minors(a, major), Minors(b, major);
    MinorsPermute(a, b, major);
    SortContents(u);
    SortContents(w);
    assert |multiset(u)| == |u| && |multiset(w)| == |w|;
    SortedUnique(SortInts(u), SortInts(w));
  }

  lemma DecidePermute(a: seq<Version>, b: seq<Version>, f: Version, t: Version)
    requires f.Version? && t.Version? && |a| == |b| && multiset(a) == multiset(b)
    ensures Decide(V1alpha1, a, f, t) == Decide(V1alpha1, b, f, t)
  {
    SortPermute(a, b, f.major);
    SortPermute(a, b, t.major);
  }

  lemma SupportPermute(a: seq<string>, b: seq<string>, v: string)
    requires multiset(a) == multiset(b)
    ensures IsSupported(a, v) == IsSupported(b, v)
  {
    assert forall s: string :: s in a <==> s in multiset(a);
    assert forall s: string :: s in b <==> s in multiset(b);
  }

  lemma SameVerdict(a: seq<string>, b: seq<string>, from: string, to: string)
    requires IsSupported(a, from) == IsSupported(b, from) && IsSupported(a, to) == IsSupported(b, to)
    requires Parse(from).Version? && Parse(to).Version? ==>
               Decide(V1alpha1, ParseAll(a), Parse(from), Parse(to)) ==
               Decide(V1alpha1, ParseAll(b), Parse(from), Parse(to))
    ensures CheckPath(V1alpha1, a, from, to) == CheckPath(V1alpha1, b, from, to)
  {
  }

  /** The v1alpha1 verdict, error details included, does not depend on declaration order. */
  lemma PermutationInvariant(a: seq<string>, b: seq<string>, from: string, to: string)
    requires multiset(a) == multiset(b)
    ensures CheckPath(V1alpha1, a, from, to) == CheckPath(V1alpha1, b, from, to)
  {
    assert |multiset(a)| == |a| && |multiset(b)| == |b|;
    SupportPermute(a, b, from);
    SupportPermute(a, b, to);
    if Parse(from).Version? && Parse(to).Version? {
      ParsePermute(a, b);
      DecidePermute(ParseAll(a), ParseAll(b), Parse(from), Parse(to));
    }
    SameVerdict(a, b, from, to);
  }

  ghost predicate DecideAgree(vs: seq<Version>) {
    forall f: Version, t: Version | Known(vs, f) && Known(vs, t) ::
      Decide(V1alpha1, vs, f, t) == Decide(V1beta1, vs, f, t)
  }

  ghost predicate OrderedEnough(vs: seq<Version>) {
    forall major: int :: |Minors(vs, major)| <= 2 || Sorted(Minors(vs, major))
  }

  lemma {:induction false} MinorsDistinct(vs: seq<Version>, major: int)
    requires forall i, j | 0 <= i < j < |vs| :: vs[i] != vs[j]
    ensures Distinct(Minors(vs, major))
  {
    if vs != [] {
      var n := |vs| - 1;
      MinorsDistinct(vs[..n], major);
      if vs[n].Version? && vs[n].major == major {
        assert vs[n] !in vs[..n];
        MinorsAreKnown(vs[..n], major, vs[n].minor);
      }
    }
  }

  /** Two minors in the wrong order: both scans still accept the step between them. */
  lemma DescendingPair(a: int, b: int, f: int, t: int)
    requires a > b && f in [a, b] && t in [a, b] && f <= t
    ensures CheckMinorStep([a, b], f, t) == CheckMinorStep([b, a], f, t)
  {
    var u, w := [a, b], [b, a];
    assert u[..1] == [a] && w[..1] == [b] && u[1] == b && w[1] == a;
    assert LastIndex(u, a) == 0 && LastIndex(u, b) == 1;
    assert LastIndex(w, a) == 1 && LastIndex(w, b) == 0;
  }

  lemma SortPair(a: int, b: int)
    requires a > b
    ensures SortInts([a, b]) == [b, a]
  {
    assert [a, b][..1] == [a] && [a][..0] == [];
    assert SortInts([a]) == [a];
    assert Insert([a], b) == Insert([], b) + [a];
  }

  lemma ScanInOrder(u: seq<int>, f: int, t: int)
    requires f in u && t in u && f <= t && (|u| <= 2 || Sorted(u))
    ensures CheckMinorStep(SortInts(u), f, t) == CheckMinorStep(u, f, t)
  {
    if Sorted(u) {
      SortContents(u);
      SortedUnique(SortInts(u), u);
    } else {
      assert u == [u[0], u[1]];
      SortPair(u[0], u[1]);
      DescendingPair(u[0], u[1], f, t);
    }
  }

  lemma OrderedEnoughDecides(vs: seq<Version>, f: Version, t: Version)
    requires Known(vs, f) && Known(vs, t)
    requires |Minors(vs, f.major)| <= 2 || Sorted(Minors(vs, f.major))
    ensures Decide(V1alpha1, vs, f, t) == Decide(V1beta1, vs, f, t)
  {
    if f.major == t.major && f.minor <= t.minor {
      MinorsAreKnown(vs, f.major, f.minor);
      MinorsAreKnown(vs, f.major, t.minor);
      ScanInOrder(Minors(vs, f.major), f.minor, t.minor);
    }
  }

  lemma MinorVerdict(api: Api, vs: seq<Version>, major: int, m: int, n: int)
    requires m <= n
    ensures var u := Minors(vs, major);
            Decide(api, vs, Version(major, m), Version(major, n)) ==
            CheckMinorStep(if api.V1alpha1? then SortInts(u) else u, m, n)
  {
  }

  /** If the verdicts agree, two minors are at most one apart in both scans or in neither. */
  lemma AgreeOnPair(vs: seq<Version>, major: int, m: int, n: int)
    requires DecideAgree(vs) && m in Minors(vs, major) && n in Minors(vs, major) && m < n
    ensures var u := Minors(vs, major);
            LastIndex(u, n) - LastIndex(u, m) <= 1 <==> LastIndex(SortInts(u), n) - LastIndex(SortInts(u), m) <= 1
  {
    var u := Minors(vs, major);
    var s := SortInts(u);
    MinorsAreKnown(vs, major, m);
    MinorsAreKnown(vs, major, n);
    assert CheckMinorStep(s, m, n) == CheckMinorStep(u, m, n) by {
      MinorVerdict(V1alpha1, vs, major, m, n);
      MinorVerdict(V1beta1, vs, major, m, n);
    }
    SortMembers(u, m);
    SortMembers(u, n);
    ScanDistance(u, m, n);
    ScanDistance(s, m, n);
  }

  lemma DistinctIndex(s: seq<int>, k: nat)
    requires k < |s| && Distinct(s)
    ensures LastIndex(s, s[k]) == k
  {
  }

  /** The places of the sorted minors in the unsorted scan are apart when their ranks are. */
  ghost predicate Spread(u: seq<int>, s: seq<int>) {
    forall i, j | 0 <= i < j < |s| :: LastIndex(u, s[j]) - LastIndex(u, s[i]) <= 1 <==> j - i <= 1
  }

  lemma AgreeMeansSpread(vs: seq<Version>, major: int)
    requires DecideAgree(vs) && Distinct(Minors(vs, major))
    ensures Spread(Minors(vs, major), SortInts(Minors(vs, major)))
  {
    var u := Minors(vs, major);
    var s := SortInts(u);
    SortContents(u);
    SortKeepsDistinct(u);
    forall i, j | 0 <= i < j < |s| ensures LastIndex(u, s[j]) - LastIndex(u, s[i]) <= 1 <==> j - i <= 1 {
      SortMembers(u, s[i]);
      SortMembers(u, s[j]);
      DistinctIndex(s, i);
      DistinctIndex(s, j);
      assert s[i] < s[j];
      AgreeOnPair(vs, major, s[i], s[j]);
    }
  }

  /** Three or more such minors sit one behind the other in both scans. */
  lemma SpreadStep(u: seq<int>, s: seq<int>, k: nat)
    requires Spread(u, s) && |s| >= 3 && k + 1 < |s|
    ensures LastIndex(u, s[k + 1]) == LastIndex(u, s[k]) + 1
  {
    var b := if k + 2 < |s| then k else k - 1;
    assert b + 1 - b <= 1;
    assert LastIndex(u, s[b + 1]) - LastIndex(u, s[b]) <= 1;
    assert LastIndex(u, s[b + 2]) - LastIndex(u, s[b + 1]) <= 1;
    assert !(LastIndex(u, s[b + 2]) - LastIndex(u, s[b]) <= 1);
  }

  lemma {:induction false} SpreadPlace(u: seq<int>, s: seq<int>, k: nat)
    requires Spread(u, s) && |s| >= 3 && k < |s|
    ensures LastIndex(u, s[k]) == LastIndex(u, s[0]) + k
  {
    if k > 0 {
      SpreadPlace(u, s, k - 1);
      SpreadStep(u, s, k - 1);
    }
  }

  lemma SpreadMeansSorted(u: seq<int>, s: seq<int>)
    requires Spread(u, s) && |u| == |s| >= 3 && Sorted(s) && s[0] in u
    ensures Sorted(u)
  {
    SpreadPlace(u, s, |s| - 1);
    forall i | 0 <= i < |s| ensures u[i] == s[i] {
      SpreadPlace(u, s, i);
    }
    assert u == s;
  }

  lemma AgreeMeansSorted(vs: seq<Version>, major: int)
    requires DecideAgree(vs) && Distinct(Minors(vs, major)) && |Minors(vs, major)| >= 3
    ensures Sorted(Minors(vs, major))
  {
    var u := Minors(vs, major);
    SortContents(u);
    SortMembers(u, SortInts(u)[0]);
    AgreeMeansSpread(vs, major);
    SpreadMeansSorted(u, SortInts(u));
  }

  /** Every entry is a readable, supported version, and no major.minor is listed twice. */
  ghost predicate WellListed(list: seq<string>) {
    && (forall i | 0 <= i < |list| :: Readable(list, list[i]))
    && (forall i, j | 0 <= i < j < |list| :: Parse(list[i]) != Parse(list[j]))
  }

  /** The two API versions give the same verdict on every edit. */
  ghost predicate Agree(list: seq<string>) {
    forall from: string, to: string :: CheckPath(V1alpha1, list, from, to) == CheckPath(V1beta1, list, from, to)
  }

  lemma SameVersionAllowed(api: Api, vs: seq<Version>, f: Version)
    requires Known(vs, f)
    ensures Decide(api, vs, f, f).Allowed?
  {
    MinorsAreKnown(vs, f.major, f.minor);
    SortMembers(Minors(vs, f.major), f.minor);
  }

  lemma DecideAgreeLifts(list: seq<string>, from: string, to: string)
    requires DecideAgree(ParseAll(list))
    ensures CheckPath(V1alpha1, list, from, to) == CheckPath(V1beta1, list, from, to)
  {
    if from != to && Readable(list, from) && Readable(list, to) {
      SupportedIsKnown(list, from);
      SupportedIsKnown(list, to);
      var vs, f, t := ParseAll(list), Parse(from), Parse(to);
      assert Decide(V1alpha1, vs, f, t) == Decide(V1beta1, vs, f, t);
    }
  }

  lemma AgreeDescends(list: seq<string>, from: string, to: string)
    requires Readable(list, from) && Readable(list, to)
    requires CheckPath(V1alpha1, list, from, to) == CheckPath(V1beta1, list, from, to)
    ensures var vs, f, t := ParseAll(list), Parse(from), Parse(to);
            Decide(V1alpha1, vs, f, t) == Decide(V1beta1, vs, f, t)
  {
    if from == to {
      SupportedIsKnown(list, from);
      SameVersionAllowed(V1alpha1, ParseAll(list), Parse(from));
      SameVersionAllowed(V1beta1, ParseAll(list), Parse(from));
    }
  }

  lemma AgreeIsDecideAgree(list: seq<string>)
    requires WellListed(list) && Agree(list)
    ensures DecideAgree(ParseAll(list))
  {
    var vs := ParseAll(list);
    forall i: nat, j: nat | i < |vs| && j < |vs|
      ensures && vs[i].Version? && vs[j].Version?
              && Decide(V1alpha1, vs, vs[i], vs[j]) == Decide(V1beta1, vs, vs[i], vs[j])
    {
      assert Readable(list, list[i]) && Readable(list, list[j]);
      AgreeDescends(list, list[i], list[j]);
    }
    EveryPairDecides(vs);
  }

  lemma EveryPairDecides(vs: seq<Version>)
    requires forall i: nat, j: nat | i < |vs| && j < |vs| ::
               && vs[i].Version? && vs[j].Version?
               && Decide(V1alpha1, vs, vs[i], vs[j]) == Decide(V1beta1, vs, vs[i], vs[j])
    ensures DecideAgree(vs)
  {
  }

  /**
   On lists without duplicates, the unsorted v1beta1 scan gives the v1alpha1 verdict on every
   edit exactly when each major has at most two minors or lists them in ascending order.
   */
  lemma AgreeIffOrderedEnough(list: seq<string>)
    requires WellListed(list)
    ensures Agree(list) <==> OrderedEnough(ParseAll(list))
  {
    var vs := ParseAll(list);
    if OrderedEnough(vs) {
      forall f: Version, t: Version | Known(vs, f) && Known(vs, t)
        ensures Decide(V1alpha1, vs, f, t) == Decide(V1beta1, vs, f, t)
      {
        OrderedEnoughDecides(vs, f, t);
      }
      forall from: string, to: string
        ensures CheckPath(V1alpha1, list, from, to) == CheckPath(V1beta1, list, from, to)
      {
        DecideAgreeLifts(list, from, to);
      }
    }
    if Agree(list) {
      AgreeIsDecideAgree(list);
      forall major: int ensures |Minors(vs, major)| <= 2 || Sorted(Minors(vs, major)) {
        MinorsDistinct(vs, major);
        if |Minors(vs, major)| >= 3 { AgreeMeansSorted(vs, major); }
      }
    }
  }
}
