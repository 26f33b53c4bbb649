/**
 Version strings: how api/v1alpha1/common_types.go reads them and how
 internal/controller/upgrade.go derives a featureCompatibilityVersion from them.
 */
module VersionText {
  import opened Text

  const HALF: int := 0x8000_0000_0000_0000

  /** Go's int: addition and multiplication wrap at 64 bits. */
  function Wrap64(n: int): (w: int)
    ensures -HALF <= w < HALF
  {
    (n + HALF) % (2 * HALF) - HALF
  }

  lemma WrapStep(n: int, d: int)
    ensures Wrap64(Wrap64(n) * 10 + d) == Wrap64(n * 10 + d)
  {
    var k := (n + HALF) / (2 * HALF);
    assert Wrap64(n) == n - k * (2 * HALF);
    assert Wrap64(n) * 10 + d + HALF == n * 10 + d + HALF - (10 * k) * (2 * HALF);
  }

  lemma WrapFits(n: int)
    ensures Wrap64(n) == n <==> -HALF <= n < HALF
  {
  }

  datatype Version = Version(major: int, minor: int) | Unparsed

  /** splitVersion: like strings.Split, except that an empty last piece is dropped. */
  function SplitVersion(v: string): seq<string> {
    var parts := Split(v, '.');
    if parts[|parts| - 1] == "" then parts[..|parts| - 1] else parts
  }

  predicate IsNumber(s: string) {
    s != "" && AllDigits(s)
  }

  function NumberValue(s: string): int
    requires IsNumber(s)
  {
    Wrap64(ToNat(s))
  }

  function Parse(v: string): Version {
    var parts := SplitVersion(v);
    if |parts| < 2 || !IsNumber(parts[0]) || !IsNumber(parts[1]) then Unparsed
    else Version(NumberValue(parts[0]), NumberValue(parts[1]))
  }

  /** formatMongoVersion. */
  function Format(v: Version): string
    requires v.Version?
  {
    FromInt(v.major) + "." + FromInt(v.minor)
  }

  /** fcvMajorMinor: the first two pieces of strings.Split, or "" when there are not two. */
  function FcvMajorMinor(v: string): string {
    var parts := Split(v, '.');
    if |parts| < 2 then "" else parts[0] + "." + parts[1]
  }

  // ---------------------------------------------------------------- the loops

  /** One more character extends the last piece, or starts a new one. */
  function Snoc(parts: seq<string>, x: char, c: char): seq<string>
    requires |parts| >= 1
  {
    if x == c then parts + [""] else parts[..|parts| - 1] + [parts[|parts| - 1] + [x]]
  }

  lemma SnocTail(first: string, rest: seq<string>, x: char, c: char)
    requires |rest| >= 1
    ensures Snoc([first] + rest, x, c) == [first] + Snoc(rest, x, c)
  {
  }

  lemma SnocHead(a: char, rest: seq<string>, x: char, c: char)
    requires |rest| >= 1
    ensures var r := Snoc(rest, x, c);
            Snoc([[a] + rest[0]] + rest[1..], x, c) == [[a] + r[0]] + r[1..]
  {
    if |rest| == 1 && x != c {
      assert [a] + (rest[0] + [x]) == ([a] + rest[0]) + [x];
    }
  }

  lemma {:induction false} SplitSnoc(s: string, x: char, c: char)
    ensures Split(s + [x], c) == Snoc(Split(s, c), x, c)
  {
    if s == "" {
      assert s + [x] == [x] && [x][1..] == "";
      var rest := Split("", c);
      assert rest == [""] && [x] + rest[0] == rest[0] + [x];
      assert Split([x], c) == if x == c then [""] + rest else [[x] + rest[0]] + rest[1..];
    } else {
      SplitSnoc(s[1..], x, c);
      assert (s + [x])[1..] == s[1..] + [x];
      if s[0] == c {
        SnocTail("", Split(s[1..], c), x, c);
      } else {
        SnocHead(s[0], Split(s[1..], c), x, c);
      }
    }
  }

  /** splitVersion's loop over the characters. */
  method SplitVersionLoop(v: string) returns (parts: seq<string>)
    ensures parts == SplitVersion(v)
  {
    parts := [];
    var cur := "";
    assert v[..0] == "";
    for i := 0 to |v|
      invariant parts + [cur] == Split(v[..i], '.')
    {
      SplitSnoc(v[..i], v[i], '.');
      assert v[..i + 1] == v[..i] + [v[i]];
      if v[i] == '.' {
        parts := parts + [cur];
        cur := "";
      } else {
        cur := cur + [v[i]];
      }
    }
    assert v[..|v|] == v;
    if cur != "" {
      parts := parts + [cur];
    }
  }

  /** atoi's loop: accepts exactly the non-empty digit strings, wrapping like Go's int. */
  method Atoi(s: string) returns (n: int, ok: bool)
    ensures ok <==> IsNumber(s)
    ensures ok ==> n == NumberValue(s)
  {
    if s == "" { return 0, false; }
    n := 0;
    for i := 0 to |s|
      invariant AllDigits(s[..i]) && n == Wrap64(ToNat(s[..i]))
    {
      if s[i] < '0' || s[i] > '9' { return 0, false; }
      assert s[..i + 1][..i] == s[..i];
      WrapStep(ToNat(s[..i]), DigitValue(s[i]));
      n := Wrap64(n * 10 + DigitValue(s[i]));
    }
    assert s[..|s|] == s;
    ok := true;
  }

  method ParseMongoVersion(v: string) returns (r: Version)
    ensures r == Parse(v)
  {
    var parts := SplitVersionLoop(v);
    if |parts| < 2 { return Unparsed; }
    var major, e1 := Atoi(parts[0]);
    var minor, e2 := Atoi(parts[1]);
    return if e1 && e2 then Version(major, minor) else Unparsed;
  }

  // ---------------------------------------------------------------- round trips

  /** Two dot-free pieces around a dot come out first. */
  lemma SplitTwo(a: string, b: string, rest: string)
    requires '.' !in a && '.' !in b && (rest == "" || rest[0] == '.')
    ensures var parts := Split(a + "." + b + rest, '.');
            |parts| >= 2 && parts[0] == a && parts[1] == b
  {
    if rest == "" {
      SplitFree(b, '.');
      SplitHead(a, b, '.');
      assert a + "." + b + rest == a + ['.'] + b;
    } else {
      var tail := rest[1..];
      SplitHead(b, tail, '.');
      SplitHead(a, b + ['.'] + tail, '.');
      assert a + "." + b + rest == a + ['.'] + (b + ['.'] + tail);
    }
  }

  /** What every splitter makes of them. */
  lemma TwoPieces(a: string, b: string, rest: string)
    requires '.' !in a && '.' !in b && b != "" && (rest == "" || rest[0] == '.')
    ensures FcvMajorMinor(a + "." + b + rest) == a + "." + b
    ensures |SplitVersion(a + "." + b + rest)| >= 2
    ensures SplitVersion(a + "." + b + rest)[..2] == [a, b]
  {
    SplitTwo(a, b, rest);
    var parts := Split(a + "." + b + rest, '.');
    assert parts[..2] == [a, b];
  }

  lemma DigitsHaveNoDot(s: string)
    requires AllDigits(s)
    ensures '.' !in s && '-' !in s
  {
  }

  /** Parsing a formatted version gives back its numbers, for every pair of Go ints from 0 up. */
  lemma ParseFormat(major: nat, minor: nat)
    requires major < HALF && minor < HALF
    ensures Parse(Format(Version(major, minor))) == Version(major, minor)
  {
    var a, b := FromNat(major), FromNat(minor);
    DigitsHaveNoDot(a);
    DigitsHaveNoDot(b);
    TwoPieces(a, b, "");
    assert a + "." + b + "" == a + "." + b;
    ToNatFromNat(major);
    ToNatFromNat(minor);
    WrapFits(major);
    WrapFits(minor);
    var parts := SplitVersion(a + "." + b);
    assert parts[0] == parts[..2][0] && parts[1] == parts[..2][1];
  }

  /** The CRD pattern: digits, a dot, digits, and optionally a dot and more digits. */
  ghost predicate MatchesPattern(v: string, a: string, b: string, patch: string) {
    && IsNumber(a) && IsNumber(b)
    && (patch == "" || (patch[0] == '.' && IsNumber(patch[1..])))
    && v == a + "." + b + patch
  }

  /** No leading zero, and small enough for Go's int. */
  predicate Canonical(s: string)
    requires IsNumber(s)
  {
    (|s| == 1 || s[0] != '0') && ToNat(s) < HALF
  }

  lemma NumberText(s: string)
    requires IsNumber(s)
    ensures FromInt(NumberValue(s)) == s <==> Canonical(s)
    ensures '.' !in FromInt(NumberValue(s))
  {
    FromNatToNat(s);
    WrapFits(ToNat(s));
    var n := NumberValue(s);
    DigitsHaveNoDot(FromNat(if n < 0 then -n else n));
    if FromInt(n) == s {
      assert s[0] != '-';
      ToNatFromNat(n);
    }
  }

  /**
   On strings of the CRD pattern the FCV text and the reformatted parse agree exactly when
   both numbers are canonical, although the two sides split the string differently.
   */
  lemma FcvIsFormattedParse(v: string, a: string, b: string, patch: string)
    requires MatchesPattern(v, a, b, patch)
    ensures Parse(v).Version?
    ensures FcvMajorMinor(v) == Format(Parse(v)) <==> Canonical(a) && Canonical(b)
  {
    DigitsHaveNoDot(a);
    DigitsHaveNoDot(b);
    TwoPieces(a, b, patch);
    var parts := SplitVersion(v);
    assert parts[0] == parts[..2][0] == a && parts[1] == parts[..2][1] == b;
    NumberText(a);
    NumberText(b);
    var x, y := FromInt(NumberValue(a)), FromInt(NumberValue(b));
    if a + "." + b == x + "." + y {
      SplitJoin([a, b], '.');
      SplitJoin([x, y], '.');
      assert Join([a, b], ['.']) == a + "." + b && Join([x, y], ['.']) == x + "." + y;
      assert [a, b][0] == [x, y][0] && [a, b][1] == [x, y][1];
    }
  }

  lemma SmallNumbers()
    ensures ToNat("08") == 8 && ToNat("2") == 2
    ensures FromNat(8) == "8" && FromNat(2) == "2"
  {
    assert "08"[..1] == "0" && "0"[..0] == "" && "2"[..0] == "";
    assert ToNat("0") == 0;
  }

  /** A leading zero keeps the FCV from being the parsed version's own text. */
  lemma LeadingZeroSplitsFcvFromParse()
    ensures FcvMajorMinor("08.2") == "08.2" && Parse("08.2") == Version(8, 2)
    ensures Format(Version(8, 2)) == "8.2"
  {
    var a, b, v := "08", "2", "08.2";
    SmallNumbers();
    assert a + "." + b + "" == v == a + "." + b;
    TwoPieces(a, b, "");
    var parts := SplitVersion(v);
    assert parts[0] == parts[..2][0] == a && parts[1] == parts[..2][1] == b;
  }
}
