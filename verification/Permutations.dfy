/** Taking one element out of each of two rearranged sequences. */
module Permutations {

  lemma CutLast<T>(a: seq<T>)
    requires a != []
    ensures multiset(a[..|a| - 1]) == multiset(a) - multiset{a[|a| - 1]}
  {
    assert a == a[..|a| - 1] + [a[|a| - 1]];
  }

  lemma CutAt<T>(b: seq<T>, k: nat)
    requires k < |b|
    ensures multiset(b[..k] + b[k + 1..]) == multiset(b) - multiset{b[k]}
  {
    assert b == b[..k] + [b[k]] + b[k + 1..];
  }

  lemma Locate<T>(a: seq<T>, b: seq<T>) returns (k: nat)
    requires a != [] && multiset(a) == multiset(b)
    ensures k < |b| && b[k] == a[|a| - 1]
  {
    var x := a[|a| - 1];
    assert x in multiset(a) && x in multiset(b) && x in b;
    k :| 0 <= k < |b| && b[k] == x;
  }

  lemma CutBoth<T>(a: seq<T>, i: nat, b: seq<T>, k: nat)
    requires multiset(a) == multiset(b) && i < |a| == |b| && k < |b| && a[i] == b[k]
    ensures multiset(a[..i] + a[i + 1..]) == multiset(b[..k] + b[k + 1..])
    ensures |a[..i] + a[i + 1..]| == |b[..k] + b[k + 1..]| == |a| - 1
  {
    CutAt(a, i);
    CutAt(b, k);
  }
}
