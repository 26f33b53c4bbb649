/**
 Supported lists in ascending order, as the operator ships one
 (api/v1alpha1/common_types.go: supportedMongoDBList): they meet the hypotheses of the theorems
 about upgrade paths, and each neighbouring pair is an accepted edit.
 */
module SupportedList {
  import opened Text
  import opened VersionText
  import opened VersionPath

  predicate InRange(v: Version) {
    v.Version? && 0 <= v.major < HALF && 0 <= v.minor < HALF
  }

  /** A version a Go program can hold. */
  type Number = v: Version | InRange(v) witness Version(0, 0)

  /** Each version lies above the one before. */
  ghost predicate Climbing(vs: seq<Number>) {
    forall i, j | 0 <= i < j < |vs| :: Before(vs[i], vs[j])
  }

  function FormatAll(vs: seq<Number>): (list: seq<string>)
    ensures |list| == |vs| && forall i | 0 <= i < |vs| :: list[i] == Format(vs[i])
  {
    seq(|vs|, i requires 0 <= i < |vs| => Format(vs[i]))
  }

  /** A formatted version is supported when it is listed, and reads back as itself. */
  lemma FormattedIsReadable(list: seq<string>, v: Number)
    requires Format(v) in list
    ensures Readable(list, Format(v)) && Parse(Format(v)) == v
  {
    var a, b := FromNat(v.major), FromNat(v.minor);
    ParseFormat(v.major, v.minor);
    DigitsHaveNoDot(a);
    DigitsHaveNoDot(b);
    SplitTwo(a, b, "");
    assert a + "." + b + "" == a + "." + b == Format(v);
  }

  lemma ListedIsReadable(vs: seq<Number>, i: nat)
    requires Climbing(vs) && i < |vs|
    ensures Readable(FormatAll(vs), Format(vs[i])) && Parse(Format(vs[i])) == vs[i]
  {
    assert FormatAll(vs)[i] == Format(vs[i]);
    FormattedIsReadable(FormatAll(vs), vs[i]);
  }

  lemma ReadsBack(vs: seq<Number>)
    requires Climbing(vs)
    ensures ParseAll(FormatAll(vs)) == vs
  {
    forall i | 0 <= i < |vs| ensures Parse(FormatAll(vs)[i]) == vs[i] {
      ListedIsReadable(vs, i);
    }
  }

  lemma {:induction false} ClimbingMinors(vs: seq<Number>, major: int)
    requires Climbing(vs)
    ensures Sorted(Minors(vs, major))
  {
    if vs != [] {
      var front, v := vs[..|vs| - 1], vs[|vs| - 1];
      ClimbingMinors(front, major);
      if v.major == major {
        var ms := Minors(front, major);
        assert forall k | 0 <= k < |ms| :: ms[k] in ms;
        forall m | m in Minors(front, major) ensures m < v.minor {
          MinorsAreKnown(front, major, m);
          var i :| 0 <= i < |front| && front[i] == Version(major, m);
          assert Before(vs[i], v);
        }
      }
    }
  }

  /** A list in ascending order has no duplicates, and the two API versions agree on it. */
  lemma ClimbingListFits(vs: seq<Number>)
    requires Climbing(vs)
    ensures WellListed(FormatAll(vs)) && Agree(FormatAll(vs))
  {
    var list := FormatAll(vs);
    forall i | 0 <= i < |list| ensures Readable(list, list[i]) && Parse(list[i]) == vs[i] {
      ListedIsReadable(vs, i);
    }
    assert WellListed(list) by {
      forall i, j | 0 <= i < j < |list| ensures Parse(list[i]) != Parse(list[j]) {
        assert Before(vs[i], vs[j]);
      }
    }
    ReadsBack(vs);
    forall major: int ensures |Minors(vs, major)| <= 2 || Sorted(Minors(vs, major)) {
      ClimbingMinors(vs, major);
    }
    AgreeIffOrderedEnough(list);
  }

  lemma ListedOnce(vs: seq<Number>, j: nat)
    requires Climbing(vs) && j < |vs|
    ensures Once(vs, vs[j])
  {
    var v := vs[j];
    assert vs == vs[..j] + [v] + vs[j + 1..];
    assert v !in vs[..j] by { assert forall i | 0 <= i < j :: Before(vs[i], v); }
    assert v !in vs[j + 1..] by { assert forall i | j < i < |vs| :: Before(v, vs[i]); }
  }

  lemma NeighboursAreNext(vs: seq<Number>, i: nat)
    requires Climbing(vs) && i + 1 < |vs|
    ensures Next(vs, vs[i], vs[i + 1])
  {
    forall u: Version | Known(vs, u) ensures !(Before(vs[i], u) && Before(u, vs[i + 1])) {
      var k :| 0 <= k < |vs| && vs[k] == u;
      assert k < i ==> Before(u, vs[i]);
      assert k > i + 1 ==> Before(vs[i + 1], u);
    }
  }

  /** On such a list the step to the next version is accepted, unless it skips a major. */
  lemma NeighboursAccepted(vs: seq<Number>, i: nat)
    requires Climbing(vs) && i + 1 < |vs| && vs[i + 1].major <= vs[i].major + 1
    ensures CheckPath(V1alpha1, FormatAll(vs), Format(vs[i]), Format(vs[i + 1])).Allowed?
  {
    ReadsBack(vs);
    ListedIsReadable(vs, i);
    ListedIsReadable(vs, i + 1);
    NeighboursAreNext(vs, i);
    ListedOnce(vs, i + 1);
    AllowedIff(FormatAll(vs), Format(vs[i]), Format(vs[i + 1]));
  }

  const SHIPPED: seq<Number> := [Version(8, 0), Version(8, 2), Version(8, 3), Version(9, 0)]

  lemma ShippedTexts()
    ensures FormatAll(SHIPPED) == ["8.0", "8.2", "8.3", "9.0"]
  {
    assert FromNat(0) == "0" && FromNat(2) == "2" && FromNat(3) == "3" && FromNat(8) == "8" && FromNat(9) == "9";
    assert Format(SHIPPED[0]) == "8" + "." + "0" == "8.0";
    assert Format(SHIPPED[1]) == "8" + "." + "2" == "8.2";
    assert Format(SHIPPED[2]) == "8" + "." + "3" == "8.3";
    assert Format(SHIPPED[3]) == "9" + "." + "0" == "9.0";
  }

  lemma ShippedClimbs()
    ensures Climbing(SHIPPED)
  {
  }

  /** The shipped list is one of them. */
  lemma ShippedListFits()
    ensures FormatAll(SHIPPED) == ["8.0", "8.2", "8.3", "9.0"]
    ensures WellListed(FormatAll(SHIPPED)) && Agree(FormatAll(SHIPPED))
  {
    ShippedTexts();
    ShippedClimbs();
    ClimbingListFits(SHIPPED);
  }

  /** Each of its versions can be upgraded to the next. */
  lemma ShippedSteps(i: nat)
    requires i < 3
    ensures CheckPath(V1alpha1, FormatAll(SHIPPED), Format(SHIPPED[i]), Format(SHIPPED[i + 1])).Allowed?
  {
    ShippedClimbs();
    NeighboursAccepted(SHIPPED, i);
  }
}
