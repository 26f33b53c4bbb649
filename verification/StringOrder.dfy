/** The order of sort.Strings, and the one ascending list of a set of strings. */
module StringOrder {

  predicate Le(a: string, b: string) {
    a == "" || (b != "" && (a[0] < b[0] || (a[0] == b[0] && Le(a[1..], b[1..]))))
  }

  lemma {:induction false} LeTotal(a: string, b: string)
    ensures Le(a, b) || Le(b, a)
  {
    if a != "" && b != "" && a[0] == b[0] { LeTotal(a[1..], b[1..]); }
  }

  lemma {:induction false} LeAntisymmetric(a: string, b: string)
    requires Le(a, b) && Le(b, a)
    ensures a == b
  {
    if a != "" && b != "" {
      LeAntisymmetric(a[1..], b[1..]);
      assert a == [a[0]] + a[1..] && b == [b[0]] + b[1..];
    }
  }

  lemma {:induction false} LeTransitive(a: string, b: string, c: string)
    requires Le(a, b) && Le(b, c)
    ensures Le(a, c)
  {
    if a != "" && a[0] == b[0] && b[0] == c[0] { LeTransitive(a[1..], b[1..], c[1..]); }
  }

  predicate Lt(a: string, b: string) {
    Le(a, b) && a != b
  }

  predicate Ascending(s: seq<string>) {
    forall i, j | 0 <= i < j < |s| :: Lt(s[i], s[j])
  }

  function Elements(s: seq<string>): set<string> {
    set x | x in s
  }

  lemma ElementsSnoc(s: seq<string>, x: string)
    ensures Elements(s + [x]) == Elements(s) + {x}
  {
  }

  /** A set has only one ascending list. */
  lemma {:induction false} AscendingUnique(a: seq<string>, b: seq<string>)
    requires Ascending(a) && Ascending(b) && Elements(a) == Elements(b)
    ensures a == b
  {
    assert b != [] ==> b[0] in Elements(b);
    if a != [] {
      assert a[0] in Elements(b);
      var j :| 0 <= j < |b| && b[j] == a[0];
      assert b[0] in Elements(a);
      var i :| 0 <= i < |a| && a[i] == b[0];
      if i > 0 && j > 0 { LeAntisymmetric(a[0], b[0]); }
      assert a[0] == b[0];
      TailElements(a);
      TailElements(b);
      AscendingUnique(a[1..], b[1..]);
      assert a == [a[0]] + a[1..] && b == [b[0]] + b[1..];
    }
  }

  lemma TailElements(a: seq<string>)
    requires a != [] && Ascending(a)
    ensures Ascending(a[1..]) && Elements(a[1..]) == Elements(a) - {a[0]}
  {
    assert a == [a[0]] + a[1..];
    assert forall i | 0 <= i < |a[1..]| :: a[1..][i] == a[i + 1];
  }

  // ---------------------------------------------------------------- sorting

  function Insert(s: seq<string>, x: string): seq<string> {
    if s == [] || Le(x, s[0]) then [x] + s else [s[0]] + Insert(s[1..], x)
  }

  /** sort.Strings. */
  function Sort(s: seq<string>): seq<string> {
    if s == [] then [] else Insert(Sort(s[..|s| - 1]), s[|s| - 1])
  }

  lemma {:induction false} InsertElements(s: seq<string>, x: string)
    ensures forall y :: y in Insert(s, x) <==> y in s || y == x
    ensures Elements(Insert(s, x)) == Elements(s) + {x}
  {
    if s != [] && !Le(x, s[0]) {
      InsertElements(s[1..], x);
      assert s == [s[0]] + s[1..];
    }
  }

  lemma {:induction false} InsertAscends(s: seq<string>, x: string)
    requires Ascending(s) && x !in s
    ensures Ascending(Insert(s, x))
  {
    if s != [] {
      TailElements(s);
      if Le(x, s[0]) {
        forall i | 0 <= i < |s| ensures Lt(x, s[i]) {
          if i > 0 { LeTransitive(x, s[0], s[i]); }
        }
      } else {
        InsertAscends(s[1..], x);
        InsertElements(s[1..], x);
        LeTotal(x, s[0]);
        var r := Insert(s[1..], x);
        forall i | 0 <= i < |r| ensures Lt(s[0], r[i]) {
          assert r[i] in Elements(r);
          if r[i] != x {
            var j :| 0 <= j < |s[1..]| && s[1..][j] == r[i];
            assert s[j + 1] == r[i];
          }
        }
      }
    }
  }

  predicate NoDuplicates(s: seq<string>) {
    forall i, j | 0 <= i < j < |s| :: s[i] != s[j]
  }

  lemma {:induction false} SortAscends(s: seq<string>)
    requires NoDuplicates(s)
    ensures Ascending(Sort(s)) && Elements(Sort(s)) == Elements(s)
  {
    if s != [] {
      var front, x := s[..|s| - 1], s[|s| - 1];
      SortAscends(front);
      assert s == front + [x] && x !in front;
      assert x !in Elements(Sort(front));
      InsertAscends(Sort(front), x);
      InsertElements(Sort(front), x);
    }
  }

  // ---------------------------------------------------------------- the list of a set

  lemma {:induction false} SomeOrder(ks: set<string>) returns (s: seq<string>)
    ensures NoDuplicates(s) && Elements(s) == ks
  {
    if ks == {} {
      s := [];
    } else {
      var k :| k in ks;
      s := SomeOrder(ks - {k});
      assert k !in Elements(s);
      ElementsSnoc(s, k);
      s := s + [k];
    }
  }

  lemma ListExists(ks: set<string>)
    ensures exists s :: Ascending(s) && Elements(s) == ks
  {
    var s := SomeOrder(ks);
    SortAscends(s);
  }

  ghost function Listed(ks: set<string>): (s: seq<string>)
    ensures Ascending(s) && Elements(s) == ks
  {
    ListExists(ks);
    var s :| Ascending(s) && Elements(s) == ks;
    s
  }

  lemma ListedEmptyIff(ks: set<string>)
    ensures Listed(ks) == [] <==> ks == {}
  {
    assert Listed(ks) != [] ==> Listed(ks)[0] in Elements(Listed(ks));
  }

  /** Collecting the keys of a map in whatever order it yields them, then sorting. */
  method SortedKeys(ks: set<string>) returns (keys: seq<string>)
    ensures keys == Listed(ks)
  {
    keys := [];
    var rest := ks;
    while rest != {}
      invariant rest <= ks && Elements(keys) == ks - rest && NoDuplicates(keys)
      decreases |rest|
    {
      var k :| k in rest;
      assert k !in Elements(keys);
      ElementsSnoc(keys, k);
      keys, rest := keys + [k], rest - {k};
    }
    SortAscends(keys);
    AscendingUnique(Sort(keys), Listed(ks));
    keys := Sort(keys);
  }
}
