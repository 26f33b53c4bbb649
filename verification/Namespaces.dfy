/**
 The two namespaces a sharded collection may be registered under
 (internal/mongodb/sharding.go: bucketsNamespace, userNamespaceFromBuckets).
 */
module Namespaces {

  const BUCKETS_PREFIX := "system.buckets."

  predicate HasPrefix(s: string, p: string) {
    p <= s
  }

  function UserNs(db: string, coll: string): string {
    db + "." + coll
  }

  function BucketsNs(db: string, coll: string): string {
    if HasPrefix(coll, BUCKETS_PREFIX) then db + "." + coll else db + "." + BUCKETS_PREFIX + coll
  }

  /** strings.IndexByte, with |s| for "not found". */
  function IndexByte(s: string, c: char): (i: nat)
    ensures i <= |s| && (forall k | 0 <= k < i :: s[k] != c) && (i < |s| ==> s[i] == c)
  {
    if s == "" || s[0] == c then 0
    else IndexByte(s[1..], c) + 1
  }

  function UserNsFromBuckets(ns: string): string {
    var dot := IndexByte(ns, '.');
    if dot == |ns| then ns
    else
      var db, rest := ns[..dot], ns[dot + 1..];
      if !HasPrefix(rest, BUCKETS_PREFIX) then ns else db + "." + rest[|BUCKETS_PREFIX|..]
  }

  lemma FirstDot(db: string, rest: string)
    requires '.' !in db
    ensures IndexByte(db + "." + rest, '.') == |db|
  {
    var s := db + "." + rest;
    assert s[|db|] == '.';
    assert forall k | 0 <= k < |db| :: s[k] == db[k];
  }

  /** Distinct collections of dot-free databases have distinct namespaces. */
  lemma UserNsInjective(db: string, coll: string, db': string, coll': string)
    requires '.' !in db && '.' !in db' && UserNs(db, coll) == UserNs(db', coll')
    ensures db == db' && coll == coll'
  {
    FirstDot(db, coll);
    FirstDot(db', coll');
    assert UserNs(db, coll)[..|db|] == db && UserNs(db', coll')[..|db'|] == db';
    assert UserNs(db, coll)[|db| + 1..] == coll && UserNs(db', coll')[|db'| + 1..] == coll';
  }

  /** What follows the first dot of "db.": nothing, unless the database name itself has a dot. */
  function AfterFirstDot(db: string): string {
    var i := IndexByte(db, '.');
    if i == |db| then "" else db[i + 1..] + "."
  }

  /** The prefix over and over, or nothing. */
  predicate Repeats(x: string) {
    x == "" || (HasPrefix(x, BUCKETS_PREFIX) && Repeats(x[|BUCKETS_PREFIX|..]))
  }

  predicate EndsInDot(x: string) {
    x != "" && x[|x| - 1] == '.'
  }

  lemma PrefixDots(i: nat)
    requires i < |BUCKETS_PREFIX|
    ensures BUCKETS_PREFIX[i] == '.' <==> i == 6 || i == 14
    ensures |BUCKETS_PREFIX| == 15 && BUCKETS_PREFIX[0] == 's' && BUCKETS_PREFIX[7] == 'b'
  {
  }

  /** Text ending in a dot, followed by the prefix, starts with the prefix only if it does so by itself. */
  lemma PrefixStaysInside(x: string, y: string)
    requires EndsInDot(x) && HasPrefix(y, BUCKETS_PREFIX)
    ensures HasPrefix(x + y, BUCKETS_PREFIX) <==> HasPrefix(x, BUCKETS_PREFIX)
  {
    var n := |x|;
    if n < |BUCKETS_PREFIX| {
      PrefixDots(n - 1);
      assert (x + y)[n - 1] == '.' && (x + y)[n] == y[0] == BUCKETS_PREFIX[0];
    } else {
      assert (x + y)[..|BUCKETS_PREFIX|] == x[..|BUCKETS_PREFIX|];
    }
  }

  lemma CancelLeft(p: string, a: string, b: string)
    ensures p + a == p + b <==> a == b
  {
    assert (p + a)[|p|..] == a && (p + b)[|p|..] == b;
  }

  lemma CancelRight(a: string, b: string, z: string)
    requires |a| == |b|
    ensures a + z == b + z <==> a == b
  {
    assert (a + z)[..|a|] == a && (b + z)[..|b|] == b;
  }

  /** A word in front that already starts with `p` commutes with `p` exactly when its rest does. */
  lemma CommuteRest(p: string, y: string)
    ensures (p + y) + p == p + (p + y) <==> y + p == p + y
  {
    assert (p + y) + p == p + (y + p);
    CancelLeft(p, y + p, p + y);
  }

  lemma {:induction false} CommutesIffRepeats(x: string)
    requires x == "" || EndsInDot(x)
    ensures x + BUCKETS_PREFIX == BUCKETS_PREFIX + x <==> Repeats(x)
  {
    var p := BUCKETS_PREFIX;
    if x == "" {
      assert x + p == p == p + x;
    } else if HasPrefix(x, p) {
      var y := x[|p|..];
      assert x == p + y;
      CommutesIffRepeats(y);
      CommuteRest(p, y);
    } else {
      PrefixStaysInside(x, p);
      assert HasPrefix(p + x, p);
    }
  }

  /** The inverse, read off a namespace cut at its first dot. */
  lemma FromBucketsAt(head: string, rest: string)
    requires '.' !in head
    ensures UserNsFromBuckets(head + "." + rest) ==
            head + "." + Stripped(rest)
  {
    var ns := head + "." + rest;
    FirstDot(head, rest);
    assert ns[..|head|] == head && ns[|head| + 1..] == rest;
  }

  lemma SameTail(head: string, a: string, b: string)
    ensures head + "." + a == head + "." + b <==> a == b
  {
    CancelLeft(head + ".", a, b);
  }

  /** The database name and its dot, cut at the first dot. */
  lemma CutDatabase(db: string) returns (head: string)
    ensures '.' !in head && db + "." == head + "." + AfterFirstDot(db)
    ensures AfterFirstDot(db) == "" || EndsInDot(AfterFirstDot(db))
    ensures AfterFirstDot(db) == "" <==> '.' !in db
  {
    var i := IndexByte(db, '.');
    head := db[..i];
    if i < |db| {
      assert db == head + "." + db[i + 1..];
    }
  }

  lemma Regroup(a: string, b: string, c: string)
    ensures (a + b) + c == a + (b + c)
  {
  }

  /** Both namespaces of a collection, cut at the first dot. */
  lemma CutNamespaces(db: string, coll: string) returns (head: string)
    ensures '.' !in head && UserNs(db, coll) == head + "." + (AfterFirstDot(db) + coll)
    ensures BucketsNs(db, coll) ==
            head + "." + (AfterFirstDot(db) + (if HasPrefix(coll, BUCKETS_PREFIX) then coll else BUCKETS_PREFIX + coll))
    ensures AfterFirstDot(db) == "" || EndsInDot(AfterFirstDot(db))
    ensures AfterFirstDot(db) == "" <==> '.' !in db
  {
    head := CutDatabase(db);
    Regroup(head + ".", AfterFirstDot(db), coll);
    Regroup(db + ".", BUCKETS_PREFIX, coll);
    Regroup(head + ".", AfterFirstDot(db), BUCKETS_PREFIX + coll);
  }

  lemma StripFront(p: string, y: string, z: string)
    ensures ((p + y) + (p + z))[|p|..] == (p + y) + z <==> y + p == p + y
  {
    assert ((p + y) + (p + z))[|p|..] == (y + p) + z;
    CancelRight(y + p, p + y, z);
  }

  /** strings.TrimPrefix with the buckets prefix. */
  function Stripped(rest: string): string {
    if HasPrefix(rest, BUCKETS_PREFIX) then rest[|BUCKETS_PREFIX|..] else rest
  }

  lemma StripInside(y: string, z: string)
    requires y == "" || EndsInDot(y)
    ensures var p := BUCKETS_PREFIX; Stripped((p + y) + (p + z)) == (p + y) + z <==> Repeats(p + y)
  {
    var p := BUCKETS_PREFIX;
    assert (p + y)[|p|..] == y;
    assert HasPrefix((p + y) + (p + z), p);
    StripFront(p, y, z);
    CommutesIffRepeats(y);
  }

  lemma StripOutside(x: string, z: string)
    requires EndsInDot(x) && !HasPrefix(x, BUCKETS_PREFIX)
    ensures Stripped(x + (BUCKETS_PREFIX + z)) != x + z && !Repeats(x)
  {
    PrefixStaysInside(x, BUCKETS_PREFIX + z);
    assert |x + (BUCKETS_PREFIX + z)| > |x + z|;
  }

  lemma StripNothing(z: string)
    ensures Stripped("" + (BUCKETS_PREFIX + z)) == "" + z
  {
    assert "" + (BUCKETS_PREFIX + z) == BUCKETS_PREFIX + z && (BUCKETS_PREFIX + z)[|BUCKETS_PREFIX|..] == z;
  }

  /** Stripping one prefix off `x`, the prefix and `z` leaves `x` and `z` exactly when `x` repeats the prefix. */
  lemma StripIff(x: string, z: string)
    requires x == "" || EndsInDot(x)
    ensures Stripped(x + (BUCKETS_PREFIX + z)) == x + z <==> Repeats(x)
  {
    if x == "" {
      StripNothing(z);
    } else if HasPrefix(x, BUCKETS_PREFIX) {
      assert x == BUCKETS_PREFIX + x[|BUCKETS_PREFIX|..];
      StripInside(x[|BUCKETS_PREFIX|..], z);
    } else {
      StripOutside(x, z);
    }
  }

  /**
   To the buckets namespace and back is the identity exactly when: for a collection without the
   prefix, the database name has no dot (or only repeats the prefix after its first one); for
   one with the prefix, the database name has a dot that is not followed by the prefix.
   */
  lemma BucketsRoundTripIff(db: string, coll: string)
    ensures var x := AfterFirstDot(db);
            UserNsFromBuckets(BucketsNs(db, coll)) == UserNs(db, coll) <==>
            if HasPrefix(coll, BUCKETS_PREFIX) then x != "" && !HasPrefix(x, BUCKETS_PREFIX) else Repeats(x)
  {
    var x := AfterFirstDot(db);
    var head := CutNamespaces(db, coll);
    var prefixed := HasPrefix(coll, BUCKETS_PREFIX);
    var rest := x + (if prefixed then coll else BUCKETS_PREFIX + coll);
    FromBucketsAt(head, rest);
    SameTail(head, Stripped(rest), x + coll);
    if !prefixed {
      StripIff(x, coll);
    } else if x == "" {
      assert rest == coll;
    } else {
      PrefixStaysInside(x, coll);
    }
  }

  /** For a database name without dots: exactly for collections without the prefix. */
  lemma DotFreeRoundTripIff(db: string, coll: string)
    requires '.' !in db
    ensures UserNsFromBuckets(BucketsNs(db, coll)) == UserNs(db, coll) <==> !HasPrefix(coll, BUCKETS_PREFIX)
  {
    BucketsRoundTripIff(db, coll);
    var head := CutNamespaces(db, coll);
  }

  /** Naming the buckets collection itself changes nothing, and buckets names map back to themselves. */
  lemma BucketsNsIdempotent(db: string, coll: string)
    requires !HasPrefix(coll, BUCKETS_PREFIX)
    ensures BucketsNs(db, BUCKETS_PREFIX + coll) == BucketsNs(db, coll) == UserNs(db, BUCKETS_PREFIX + coll)
  {
    assert HasPrefix(BUCKETS_PREFIX + coll, BUCKETS_PREFIX);
    assert db + "." + (BUCKETS_PREFIX + coll) == db + "." + BUCKETS_PREFIX + coll;
  }
}
