/**
 The profile grouping engine (internal/insights/analyzer.go: detectSlowQueryPatterns,
 filterShape, summarizeQuery, splitNS, severityFromLatency).

 A filter is its set of field names: the analysis never looks at the values.  The order in
 which a map yields its keys is arbitrary.
 */
module Insights {
  import opened Text
  import opened Permutations
  import opened StringOrder

  datatype Doc = Doc(op: string, ns: string, millis: int, filter: set<string>, examined: int, returned: int)

  datatype Bucket = Bucket(ns: string, filter: set<string>, samples: seq<string>, count: nat, total: int)

  datatype Severity = Info | Warning | Critical

  /** What the detail line of a recommendation prints. */
  datatype Detail = Detail(shape: string, count: nat, avg: int, threshold: int)

  datatype Recommendation = Recommendation(
    severity: Severity, db: string, coll: string, detail: Detail, avg: int, samples: seq<string>)

  // ---------------------------------------------------------------- keys

  ghost function Shape(fields: set<string>): string {
    Join(Listed(fields), ",")
  }

  method FilterShape(fields: set<string>) returns (s: string)
    ensures s == Shape(fields)
  {
    if |fields| == 0 {
      ListedEmptyIff(fields);
      return "";
    }
    var keys := SortedKeys(fields);
    s := Join(keys, ",");
  }

  ghost function GroupKey(ns: string, fields: set<string>): string {
    ns + "|" + Shape(fields)
  }

  ghost function KeyOf(d: Doc): string {
    GroupKey(d.ns, d.filter)
  }

  /** Names that keep groups apart: no '|' in namespaces, no ',' in field names, no lone empty name. */
  ghost predicate Plain(ns: string, fields: set<string>) {
    '|' !in ns && fields != {""} && forall f | f in fields :: ',' !in f
  }

  lemma KeySplits(ns: string, fields: set<string>, ns': string, fields': set<string>)
    requires '|' !in ns && '|' !in ns' && GroupKey(ns, fields) == GroupKey(ns', fields')
    ensures ns == ns' && Shape(fields) == Shape(fields')
  {
    SplitHead(ns, Shape(fields), '|');
    SplitHead(ns', Shape(fields'), '|');
    var k := GroupKey(ns, fields);
    assert ns == Split(k, '|')[0] == ns';
    assert k[|ns| + 1..] == Shape(fields) && k[|ns'| + 1..] == Shape(fields');
  }

  lemma ShapeNotEmpty(fields: set<string>)
    requires fields != {} && fields != {""} && forall f | f in fields :: ',' !in f
    ensures Shape(fields) != ""
  {
    var l := Listed(fields);
    ListFree(fields);
    SplitJoin(l, ',');
    assert Elements([""]) == {""};
  }

  lemma ListFree(fields: set<string>)
    requires forall f | f in fields :: ',' !in f
    ensures Free(Listed(fields), ',') && (fields != {} ==> |Listed(fields)| >= 1)
  {
    var l := Listed(fields);
    forall i | 0 <= i < |l| ensures ',' !in l[i] {
      assert l[i] in Elements(l);
    }
    ListedEmptyIff(fields);
  }

  /** On plain names the key tells the namespace and the set of fields. */
  lemma KeyInjective(ns: string, fields: set<string>, ns': string, fields': set<string>)
    requires Plain(ns, fields) && Plain(ns', fields')
    ensures GroupKey(ns, fields) == GroupKey(ns', fields') <==> ns == ns' && fields == fields'
  {
    if GroupKey(ns, fields) == GroupKey(ns', fields') {
      KeySplits(ns, fields, ns', fields');
      ListedEmptyIff({});
      if fields == {} {
        if fields' != {} { ShapeNotEmpty(fields'); }
      } else if fields' == {} {
        ShapeNotEmpty(fields);
      } else {
        ListFree(fields);
        ListFree(fields');
        SplitJoin(Listed(fields), ',');
        SplitJoin(Listed(fields'), ',');
        assert fields == Elements(Listed(fields)) == Elements(Listed(fields')) == fields';
      }
    }
  }

  lemma ShapeOf(s: seq<string>)
    requires Ascending(s)
    ensures Shape(Elements(s)) == Join(s, ",")
  {
    AscendingUnique(s, Listed(Elements(s)));
  }

  /** Each of the three conditions is needed: different groups that share a key. */
  lemma OddNamesCollide()
    ensures GroupKey("db.c", {"a", "b"}) == GroupKey("db.c", {"a,b"})
    ensures GroupKey("db.c", {}) == GroupKey("db.c", {""})
    ensures GroupKey("db.c|a", {"b"}) == GroupKey("db.c", {"a|b"})
  {
    assert Lt("a", "b");
    ShapeOf(["a", "b"]);
    ShapeOf(["a,b"]);
    ShapeOf([]);
    ShapeOf([""]);
    ShapeOf(["b"]);
    ShapeOf(["a|b"]);
    assert Elements(["a", "b"]) == {"a", "b"} && Elements(["a,b"]) == {"a,b"} && Elements([]) == {};
    assert Elements([""]) == {""} && Elements(["b"]) == {"b"} && Elements(["a|b"]) == {"a|b"};
    assert ["a", "b"][1..] == ["b"];
    assert Join(["a", "b"], ",") == "a" + "," + "b" == "a,b";
    assert "db.c|a" + "|" + "b" == "db.c" + "|" + "a|b";
  }

  // ---------------------------------------------------------------- groups

  ghost function Keys(docs: seq<Doc>): set<string> {
    set d | d in docs :: KeyOf(d)
  }

  /** The documents with the given key, in order. */
  ghost function Group(docs: seq<Doc>, key: string): seq<Doc> {
    if docs == [] then []
    else
      var front := Group(docs[..|docs| - 1], key);
      if KeyOf(docs[|docs| - 1]) == key then front + [docs[|docs| - 1]] else front
  }

  function Total(docs: seq<Doc>): int {
    if docs == [] then 0 else Total(docs[..|docs| - 1]) + docs[|docs| - 1].millis
  }

  ghost function Summary(d: Doc): string {
    Summarized(d, Shape(d.filter))
  }

  function Words(d: Doc, shape: string): seq<string> {
    [d.op, "ns=" + d.ns, "filter=" + shape, "millis=" + FromInt(d.millis),
     "examined=" + FromInt(d.examined), "returned=" + FromInt(d.returned)]
  }

  function Summarized(d: Doc, shape: string): string {
    Join(Words(d, shape), " ")
  }

  /** The summaries of the first three documents. */
  ghost function Samples(docs: seq<Doc>): seq<string> {
    seq(if |docs| < 3 then |docs| else 3, i requires 0 <= i < |docs| => Summary(docs[i]))
  }

  ghost function BucketOf(group: seq<Doc>): Bucket
    requires group != []
  {
    Bucket(group[0].ns, group[0].filter, Samples(group), |group|, Total(group))
  }

  lemma {:induction false} GroupMembers(docs: seq<Doc>, key: string)
    ensures forall d | d in Group(docs, key) :: d in docs && KeyOf(d) == key
    ensures Group(docs, key) != [] <==> key in Keys(docs)
  {
    if docs != [] {
      GroupMembers(docs[..|docs| - 1], key);
      assert docs == docs[..|docs| - 1] + [docs[|docs| - 1]];
    }
  }

  // ---------------------------------------------------------------- recommendations

  /** Go's integer division, which truncates. */
  function GoDiv(a: int, b: int): int
    requires b > 0
  {
    if a >= 0 then a / b else -((-a) / b)
  }

  predicate Slow(b: Bucket, threshold: int) {
    b.count >= 3 && GoDiv(b.total, b.count) >= threshold
  }

  ghost function SlowKeys(docs: seq<Doc>, threshold: int): set<string> {
    set k | k in Keys(docs) && Group(docs, k) != [] && Slow(BucketOf(Group(docs, k)), threshold)
  }

  /** The conversion to int32. */
  function ToInt32(z: int): int {
    (z + 0x8000_0000) % 0x1_0000_0000 - 0x8000_0000
  }

  function SeverityFromLatency(avg: int): Severity {
    if avg >= 1000 then Critical else if avg >= 500 then Warning else Info
  }

  function SplitNs(ns: string): (string, string) {
    var parts := Split(ns, '.');
    if |parts| == 1 then (ns, "") else (parts[0], Join(parts[1..], "."))
  }

  ghost function Recommend(b: Bucket, threshold: int): Recommendation
    requires b.count > 0
  {
    var avg := ToInt32(GoDiv(b.total, b.count));
    Recommendation(SeverityFromLatency(avg), SplitNs(b.ns).0, SplitNs(b.ns).1,
                   Detail(Shape(b.filter), b.count, avg, threshold), avg, b.samples)
  }

  /** The recommendations, one per slow key, in key order. */
  ghost predicate IsReport(docs: seq<Doc>, threshold: int, out: seq<Recommendation>) {
    var keys := Listed(SlowKeys(docs, threshold));
    && |out| == |keys|
    && forall i | 0 <= i < |keys| ::
         Group(docs, keys[i]) != [] && out[i] == Recommend(BucketOf(Group(docs, keys[i])), threshold)
  }

  method SplitNS(ns: string) returns (db: string, coll: string)
    ensures (db, coll) == SplitNs(ns)
    ensures '.' in ns ==> db + "." + coll == ns && '.' !in db
  {
    var parts := Split(ns, '.');
    SplitIsFree(ns, '.');
    JoinSplit(ns, '.');
    if |parts| == 1 { return ns, ""; }
    return parts[0], Join(parts[1..], ".");
  }

  lemma GroupSnoc(docs: seq<Doc>, d: Doc, key: string)
    ensures Group(docs + [d], key) == if KeyOf(d) == key then Group(docs, key) + [d] else Group(docs, key)
  {
    assert (docs + [d])[..|docs|] == docs;
  }

  /** The loop body on one bucket. */
  function Grow(b: Bucket, d: Doc, sample: string): Bucket {
    Bucket(b.ns, b.filter, if |b.samples| < 3 then b.samples + [sample] else b.samples, b.count + 1, b.total + d.millis)
  }

  lemma SamplesGrow(g: seq<Doc>, d: Doc)
    ensures Samples(g + [d]) == if |Samples(g)| < 3 then Samples(g) + [Summary(d)] else Samples(g)
  {
    assert forall i | 0 <= i < |g| :: (g + [d])[i] == g[i];
  }

  lemma TotalGrows(g: seq<Doc>, d: Doc)
    ensures Total(g + [d]) == Total(g) + d.millis
  {
    assert (g + [d])[..|g|] == g;
  }

  lemma BucketGrows(g: seq<Doc>, d: Doc)
    ensures g == [] ==> BucketOf(g + [d]) == Grow(Bucket(d.ns, d.filter, [], 0, 0), d, Summary(d))
    ensures g != [] ==> BucketOf(g + [d]) == Grow(BucketOf(g), d, Summary(d))
  {
    SamplesGrow(g, d);
    TotalGrows(g, d);
  }

  ghost predicate Grouped(docs: seq<Doc>, groups: map<string, Bucket>) {
    && groups.Keys == Keys(docs)
    && forall k | k in groups :: Group(docs, k) != [] && groups[k] == BucketOf(Group(docs, k))
  }

  function BucketFor(groups: map<string, Bucket>, key: string, d: Doc): Bucket {
    if key in groups then groups[key] else Bucket(d.ns, d.filter, [], 0, 0)
  }

  lemma GroupedSnoc(docs: seq<Doc>, d: Doc, groups: map<string, Bucket>, key: string, sample: string)
    requires Grouped(docs, groups) && key == KeyOf(d) && sample == Summary(d)
    ensures Grouped(docs + [d], groups[key := Grow(BucketFor(groups, key, d), d, sample)])
  {
    var groups' := groups[key := Grow(BucketFor(groups, key, d), d, sample)];
    GroupMembers(docs, key);
    BucketGrows(Group(docs, key), d);
    forall k | k in groups' ensures Group(docs + [d], k) != [] && groups'[k] == BucketOf(Group(docs + [d], k)) {
      GroupSnoc(docs, d, k);
    }
    KeysSnoc(docs, d);
  }

  lemma KeysSnoc(docs: seq<Doc>, d: Doc)
    ensures Keys(docs + [d]) == Keys(docs) + {KeyOf(d)}
  {
    assert forall x :: x in docs + [d] <==> x in docs || x == d;
  }

  lemma GroupedStep(docs: seq<Doc>, i: nat, groups: map<string, Bucket>, key: string, sample: string)
    requires i < |docs| && Grouped(docs[..i], groups) && key == KeyOf(docs[i]) && sample == Summary(docs[i])
    ensures Grouped(docs[..i + 1], groups[key := Grow(BucketFor(groups, key, docs[i]), docs[i], sample)])
  {
    assert docs[..i + 1] == docs[..i] + [docs[i]];
    GroupedSnoc(docs[..i], docs[i], groups, key, sample);
  }

  method Describe(d: Doc) returns (key: string, sample: string)
    ensures key == KeyOf(d) && sample == Summary(d)
  {
    var shape := FilterShape(d.filter);
    key, sample := d.ns + "|" + shape, Summarized(d, shape);
  }

  /** The grouping loop. */
  method GroupDocs(docs: seq<Doc>) returns (groups: map<string, Bucket>)
    ensures Grouped(docs, groups)
  {
    groups := map[];
    for i := 0 to |docs|
      invariant Grouped(docs[..i], groups)
    {
      var d := docs[i];
      var key, sample := Describe(d);
      GroupedStep(docs, i, groups, key, sample);
      groups := groups[key := Grow(BucketFor(groups, key, d), d, sample)];
    }
    assert docs[..|docs|] == docs;
  }

  /** The keys that pass both tests, met in any order. */
  method SelectSlow(groups: map<string, Bucket>, threshold: int) returns (slow: set<string>)
    ensures slow == set k | k in groups && Slow(groups[k], threshold)
  {
    slow := {};
    var rest := groups.Keys;
    while rest != {}
      invariant rest <= groups.Keys
      invariant slow == set k | k in groups && k !in rest && Slow(groups[k], threshold)
      decreases |rest|
    {
      var k :| k in rest;
      rest := rest - {k};
      if groups[k].count < 3 { continue; }
      var avg := GoDiv(groups[k].total, groups[k].count);
      if avg < threshold { continue; }
      slow := slow + {k};
    }
  }

  method Emit(b: Bucket, threshold: int) returns (r: Recommendation)
    requires b.count > 0
    ensures r == Recommend(b, threshold)
  {
    var avg := ToInt32(GoDiv(b.total, b.count));
    var db, coll := SplitNS(b.ns);
    var shape := FilterShape(b.filter);
    r := Recommendation(SeverityFromLatency(avg), db, coll, Detail(shape, b.count, avg, threshold), avg, b.samples);
  }

  method DetectSlowQueryPatterns(docs: seq<Doc>, threshold: int) returns (out: seq<Recommendation>)
    ensures IsReport(docs, threshold, out)
  {
    var groups := GroupDocs(docs);
    var slow := SelectSlow(groups, threshold);
    assert slow == SlowKeys(docs, threshold);
    var keys := SortedKeys(slow);
    out := [];
    for i := 0 to |keys|
      invariant |out| == i
      invariant forall j | 0 <= j < i ::
                  Group(docs, keys[j]) != [] && out[j] == Recommend(BucketOf(Group(docs, keys[j])), threshold)
    {
      assert keys[i] in Elements(keys);
      var r := Emit(groups[keys[i]], threshold);
      out := out + [r];
    }
  }

  // ---------------------------------------------------------------- what a report says

  /** The documents of a namespace with exactly these fields, in order. */
  function Matching(docs: seq<Doc>, ns: string, fields: set<string>): seq<Doc> {
    if docs == [] then []
    else
      var front := Matching(docs[..|docs| - 1], ns, fields);
      var d := docs[|docs| - 1];
      if d.ns == ns && d.filter == fields then front + [d] else front
  }

  ghost predicate AllPlain(docs: seq<Doc>) {
    forall i | 0 <= i < |docs| :: Plain(docs[i].ns, docs[i].filter)
  }

  lemma {:induction false} GroupIsMatching(docs: seq<Doc>, ns: string, fields: set<string>)
    requires AllPlain(docs) && Plain(ns, fields)
    ensures Group(docs, GroupKey(ns, fields)) == Matching(docs, ns, fields)
  {
    if docs != [] {
      var d := docs[|docs| - 1];
      GroupIsMatching(docs[..|docs| - 1], ns, fields);
      KeyInjective(d.ns, d.filter, ns, fields);
    }
  }

  /**
   On plain names the report is in strictly ascending key order and holds exactly one
   recommendation for each namespace and field set with at least three documents and an average
   at or above the threshold, computed from exactly those documents.
   */
  lemma ExactlyOnePerGroup(docs: seq<Doc>, threshold: int, out: seq<Recommendation>, ns: string, fields: set<string>)
    requires IsReport(docs, threshold, out) && AllPlain(docs) && Plain(ns, fields)
    ensures var keys := Listed(SlowKeys(docs, threshold));
            && |out| == |keys| && Ascending(keys)
            && forall k | k in keys :: exists d | d in docs :: k == KeyOf(d)
    ensures var g := Matching(docs, ns, fields);
            |g| >= 3 && GoDiv(Total(g), |g|) >= threshold <==> GroupKey(ns, fields) in Listed(SlowKeys(docs, threshold))
    ensures var keys := Listed(SlowKeys(docs, threshold));
            var g := Matching(docs, ns, fields);
            forall i | 0 <= i < |keys| && keys[i] == GroupKey(ns, fields) ::
              g != [] && out[i] == Recommend(BucketOf(g), threshold)
  {
    var keys, k := Listed(SlowKeys(docs, threshold)), GroupKey(ns, fields);
    GroupIsMatching(docs, ns, fields);
    GroupMembers(docs, k);
    assert k in keys <==> k in Elements(keys);
    forall x | x in keys ensures exists d | d in docs :: x == KeyOf(d) {
      assert x in Elements(keys) && x in Keys(docs);
    }
  }

  /** The report is a function of the documents: the order in which maps yield their keys is invisible. */
  lemma ReportUnique(docs: seq<Doc>, threshold: int, out: seq<Recommendation>, out': seq<Recommendation>)
    requires IsReport(docs, threshold, out) && IsReport(docs, threshold, out')
    ensures out == out'
  {
    assert forall i | 0 <= i < |out| :: out[i] == out'[i];
  }

  lemma {:induction false} GroupCounts(docs: seq<Doc>, key: string, d: Doc)
    ensures multiset(Group(docs, key))[d] == if KeyOf(d) == key then multiset(docs)[d] else 0
  {
    if docs != [] {
      GroupCounts(docs[..|docs| - 1], key, d);
      assert docs == docs[..|docs| - 1] + [docs[|docs| - 1]];
    }
  }

  lemma GroupPermutes(a: seq<Doc>, b: seq<Doc>, key: string)
    requires multiset(a) == multiset(b)
    ensures multiset(Group(a, key)) == multiset(Group(b, key))
  {
    forall d ensures multiset(Group(a, key))[d] == multiset(Group(b, key))[d] {
      GroupCounts(a, key, d);
      GroupCounts(b, key, d);
    }
  }

  lemma {:induction false} TotalCut(s: seq<Doc>, j: nat)
    requires j < |s|
    ensures Total(s) == Total(s[..j] + s[j + 1..]) + s[j].millis
  {
    var n := |s| - 1;
    var t := s[..j] + s[j + 1..];
    if j == n {
      assert t == s[..n];
    } else {
      TotalCut(s[..n], j);
      assert t[..n - 1] == s[..n][..j] + s[..n][j + 1..];
      assert t[n - 1] == s[n];
    }
  }

  lemma {:induction false} TotalPermutes(a: seq<Doc>, b: seq<Doc>)
    requires multiset(a) == multiset(b)
    ensures Total(a) == Total(b) && |a| == |b|
  {
    assert |multiset(a)| == |a| && |multiset(b)| == |b|;
    if a != [] {
      var n := |a| - 1;
      var j := Locate(a, b);
      CutLast(a);
      CutAt(b, j);
      TotalPermutes(a[..n], b[..j] + b[j + 1..]);
      TotalCut(b, j);
    }
  }

  /** The group of a key under two orders of the documents: the same bucket, samples aside. */
  lemma BucketPermutes(a: seq<Doc>, b: seq<Doc>, key: string)
    requires multiset(a) == multiset(b) && forall d | d in a :: '|' !in d.ns
    ensures Group(a, key) != [] <==> Group(b, key) != []
    ensures Group(a, key) != [] ==>
              var x, y := BucketOf(Group(a, key)), BucketOf(Group(b, key));
              x.ns == y.ns && Shape(x.filter) == Shape(y.filter) && x.count == y.count && x.total == y.total
  {
    GroupPermutes(a, b, key);
    TotalPermutes(Group(a, key), Group(b, key));
    if Group(a, key) != [] {
      var d, e := Group(a, key)[0], Group(b, key)[0];
      GroupMembers(a, key);
      GroupMembers(b, key);
      assert d in Group(a, key) && e in Group(b, key);
      assert e in multiset(b) && e in multiset(a);
      KeySplits(d.ns, d.filter, e.ns, e.filter);
    }
  }

  lemma SlowKeysPermute(a: seq<Doc>, b: seq<Doc>, threshold: int)
    requires multiset(a) == multiset(b) && forall d | d in a :: '|' !in d.ns
    ensures SlowKeys(a, threshold) == SlowKeys(b, threshold)
  {
    forall k ensures k in SlowKeys(a, threshold) <==> k in SlowKeys(b, threshold) {
      BucketPermutes(a, b, k);
      GroupMembers(a, k);
      GroupMembers(b, k);
    }
  }

  /** Samples aside, the report does not depend on the order of the documents. */
  lemma ReportPermutes(a: seq<Doc>, b: seq<Doc>, threshold: int, out: seq<Recommendation>, out': seq<Recommendation>)
    requires multiset(a) == multiset(b) && forall d | d in a :: '|' !in d.ns
    requires IsReport(a, threshold, out) && IsReport(b, threshold, out')
    ensures |out| == |out'| && forall i | 0 <= i < |out| :: out[i].(samples := []) == out'[i].(samples := [])
  {
    SlowKeysPermute(a, b, threshold);
    var keys := Listed(SlowKeys(a, threshold));
    forall i | 0 <= i < |keys| ensures out[i].(samples := []) == out'[i].(samples := []) {
      BucketPermutes(a, b, keys[i]);
    }
  }

  // ---------------------------------------------------------------- the average

  lemma {:induction false} TotalWithin(docs: seq<Doc>, lo: int, hi: int)
    requires forall i | 0 <= i < |docs| :: lo <= docs[i].millis <= hi
    ensures |docs| * lo <= Total(docs) <= |docs| * hi
  {
    if docs != [] {
      TotalWithin(docs[..|docs| - 1], lo, hi);
      assert |docs| * lo == (|docs| - 1) * lo + lo && |docs| * hi == (|docs| - 1) * hi + hi;
    }
  }

  lemma Cancel(n: nat, x: int, y: int)
    requires n * x < n * y
    ensures x < y
  {
    assert x >= y ==> n * (x - y) >= 0;
    assert n * (x - y) == n * x - n * y;
  }

  /** A quotient lies between whole bounds of the fraction. */
  lemma QuotientWithin(a: nat, n: nat, lo: int, hi: int)
    requires n > 0 && n * lo <= a <= n * hi
    ensures lo <= a / n <= hi
  {
    var q := a / n;
    assert n * q <= a < n * (q + 1);
    assert n * (hi + 1) == n * hi + n;
    Cancel(n, lo, q + 1);
    Cancel(n, q, hi + 1);
  }

  /** A truncated average lies between the bounds of its terms. */
  lemma AverageWithin(docs: seq<Doc>, lo: int, hi: int)
    requires docs != [] && forall i | 0 <= i < |docs| :: lo <= docs[i].millis <= hi
    ensures lo <= GoDiv(Total(docs), |docs|) <= hi
  {
    TotalWithin(docs, lo, hi);
    var a, n := Total(docs), |docs|;
    if a >= 0 {
      QuotientWithin(a, n, lo, hi);
    } else {
      assert n * -lo == -(n * lo) && n * -hi == -(n * hi);
      QuotientWithin(-a, n, -hi, -lo);
    }
  }

  predicate Int32(z: int) {
    -0x8000_0000 <= z < 0x8000_0000
  }

  /** The printed average is the true one: narrowing it to int32 never changes it. */
  lemma AverageFitsInt32(docs: seq<Doc>)
    requires docs != [] && forall i | 0 <= i < |docs| :: Int32(docs[i].millis)
    ensures ToInt32(GoDiv(Total(docs), |docs|)) == GoDiv(Total(docs), |docs|)
  {
    AverageWithin(docs, -0x8000_0000, 0x7fff_ffff);
  }

  /** What a recommendation tells about its group: where, how often, how slow, and how bad that is. */
  lemma RecommendationTells(g: seq<Doc>, threshold: int)
    requires g != [] && forall i | 0 <= i < |g| :: Int32(g[i].millis)
    ensures var r, avg := Recommend(BucketOf(g), threshold), GoDiv(Total(g), |g|);
            && r.avg == avg && r.detail == Detail(Shape(g[0].filter), |g|, avg, threshold)
            && (r.severity == Critical <==> avg >= 1000) && (r.severity == Warning <==> 500 <= avg < 1000)
            && |r.samples| == (if |g| < 3 then |g| else 3)
            && (forall i | 0 <= i < |r.samples| :: r.samples[i] == Summary(g[i]))
            && (if '.' in g[0].ns then r.db + "." + r.coll == g[0].ns && '.' !in r.db
                else r.db == g[0].ns && r.coll == "")
  {
    AverageFitsInt32(g);
    NamespaceParts(g[0].ns);
  }

  lemma NamespaceParts(ns: string)
    ensures if '.' in ns then SplitNs(ns).0 + "." + SplitNs(ns).1 == ns && '.' !in SplitNs(ns).0
            else SplitNs(ns) == (ns, "")
  {
    SplitIsFree(ns, '.');
    JoinSplit(ns, '.');
    if '.' !in ns { SplitFree(ns, '.'); }
  }

  /** Read word by word, a sample names operation, namespace, filter, time, and documents examined and returned. */
  lemma SampleWords(d: Doc)
    requires ' ' !in d.op && ' ' !in d.ns && ' ' !in Shape(d.filter)
    ensures Split(Summary(d), ' ') ==
            [d.op, "ns=" + d.ns, "filter=" + Shape(d.filter), "millis=" + FromInt(d.millis),
             "examined=" + FromInt(d.examined), "returned=" + FromInt(d.returned)]
  {
    NumberHasNoBlank(d.millis);
    NumberHasNoBlank(d.examined);
    NumberHasNoBlank(d.returned);
    SplitJoin(Words(d, Shape(d.filter)), ' ');
  }

  lemma NumberHasNoBlank(z: int)
    ensures ' ' !in FromInt(z)
  {
  }
}
