/**
 Declarative collection sharding
 (internal/mongodb/sharding.go: EnsureShardedCollection and its helpers;
 internal/controller/mongodbsharded_controller.go: reconcileShardedCollections, buildShardKey).

 The server is its config.collections registry.  It would overwrite an entry that the lookup has
 seen, so that no such entry is replaced is the operator's own doing; it refuses to change one
 that another client has got in since the lookup.  Other clients may shard collections at any
 time, and a command may take effect although the caller sees an error.
 */
module CollectionSharding {
  import opened Options
  import opened Text
  import opened Namespaces

  // ---------------------------------------------------------------- shard keys

  /**
   A decoded BSON value.  Whole is a float64 holding an integer of the int64 range; Fraction is
   any other float64 and Other any further type, each given by its "%v" text.
   */
  datatype Value =
    | Str(text: string)
    | Int32(n: int)
    | Int64(n: int)
    | Whole(n: int)
    | Fraction(text: string)
    | Other(text: string)

  datatype Entry = Entry(name: string, value: Value)

  /** bson.D: an ordered document. */
  type Key = seq<Entry>

  /** One declared field of a shard key; the CRD admits the orders "1", "-1" and "hashed". */
  datatype Field = Field(name: string, order: string)

  function Normalize(v: Value): string {
    match v
    case Str(t) => t
    case Int32(n) => FromInt(n)
    case Int64(n) => FromInt(n)
    case Whole(n) => FromInt(n)
    case Fraction(t) => t
    case Other(t) => t
  }

  predicate KeyEqual(a: Key, b: Key) {
    |a| == |b| && forall i | 0 <= i < |a| :: a[i].name == b[i].name && Normalize(a[i].value) == Normalize(b[i].value)
  }

  method ShardKeyEqual(a: Key, b: Key) returns (eq: bool)
    ensures eq == KeyEqual(a, b)
  {
    if |a| != |b| { return false; }
    for i := 0 to |a|
      invariant forall j | 0 <= j < i :: a[j].name == b[j].name && Normalize(a[j].value) == Normalize(b[j].value)
    {
      if a[i].name != b[i].name { return false; }
      if Normalize(a[i].value) != Normalize(b[i].value) { return false; }
    }
    return true;
  }

  function OrderValue(order: string): Value {
    if order == "hashed" then Str("hashed") else if order == "-1" then Int32(-1) else Int32(1)
  }

  function KeyOf(fields: seq<Field>): (key: Key)
    ensures |key| == |fields|
    ensures forall i | 0 <= i < |fields| :: key[i] == Entry(fields[i].name, OrderValue(fields[i].order))
  {
    seq(|fields|, i requires 0 <= i < |fields| => Entry(fields[i].name, OrderValue(fields[i].order)))
  }

  method BuildShardKey(fields: seq<Field>) returns (key: Key)
    ensures key == KeyOf(fields)
  {
    key := [];
    for i := 0 to |fields|
      invariant |key| == i
      invariant forall j | 0 <= j < i :: key[j] == KeyOf(fields)[j]
    {
      var val: Value;
      match fields[i].order {
        case "hashed" => val := Str("hashed");
        case "-1" => val := Int32(-1);
        case _ => val := Int32(1);
      }
      key := key + [Entry(fields[i].name, val)];
    }
  }

  predicate Admitted(fields: seq<Field>) {
    forall i | 0 <= i < |fields| :: fields[i].order in {"1", "-1", "hashed"}
  }

  lemma OrdersPrint()
    ensures Normalize(OrderValue("1")) == "1" && Normalize(OrderValue("-1")) == "-1"
    ensures Normalize(OrderValue("hashed")) == "hashed"
  {
    assert FromNat(1) == "1";
    assert FromInt(-1) == "-" + "1" == "-1";
  }

  /** Built keys compare equal exactly when the ordered field lists are the same. */
  lemma BuiltKeysEqualIff(a: seq<Field>, b: seq<Field>)
    requires Admitted(a) && Admitted(b)
    ensures KeyEqual(KeyOf(a), KeyOf(b)) <==> a == b
  {
    OrdersPrint();
    if KeyEqual(KeyOf(a), KeyOf(b)) {
      var ka, kb := KeyOf(a), KeyOf(b);
      forall i | 0 <= i < |a| ensures a[i] == b[i] {
        assert ka[i].name == kb[i].name && Normalize(ka[i].value) == Normalize(kb[i].value);
        assert a[i].order in {"1", "-1", "hashed"} && b[i].order in {"1", "-1", "hashed"};
      }
    }
  }

  /** The same value as the server may hand it back: an integer in any numeric type. */
  predicate SameValue(v: Value, w: Value) {
    v == w || (Numeric(v) && Numeric(w) && v.n == w.n)
  }

  predicate Numeric(v: Value) {
    v.Int32? || v.Int64? || v.Whole?
  }

  predicate SameKey(a: Key, b: Key) {
    |a| == |b| && forall i | 0 <= i < |a| :: a[i].name == b[i].name && SameValue(a[i].value, b[i].value)
  }

  /** The numeric type an order comes back in never matters, and a different number always does. */
  lemma NumericTypeIsIrrelevant(v: Value, w: Value)
    requires Numeric(v) && Numeric(w)
    ensures Normalize(v) == Normalize(w) <==> v.n == w.n
  {
    if Normalize(v) == Normalize(w) { FromIntInjective(v.n, w.n); }
  }

  /** Comparison is unchanged under re-encoding of either side. */
  lemma ReencodingKeepsVerdict(a: Key, a': Key, b: Key, b': Key)
    requires SameKey(a, a') && SameKey(b, b')
    ensures KeyEqual(a, b) <==> KeyEqual(a', b')
  {
    assert forall i | 0 <= i < |a| :: Normalize(a[i].value) == Normalize(a'[i].value);
    assert forall i | 0 <= i < |b| :: Normalize(b[i].value) == Normalize(b'[i].value);
    if |a| == |b| {
      forall i | 0 <= i < |a|
        ensures a[i].name == b[i].name && Normalize(a[i].value) == Normalize(b[i].value) <==>
                a'[i].name == b'[i].name && Normalize(a'[i].value) == Normalize(b'[i].value)
      {
        assert a[i].name == a'[i].name && b[i].name == b'[i].name;
      }
    }
  }

  // ---------------------------------------------------------------- one collection

  datatype Item = Item(db: string, coll: string, fields: seq<Field>)

  /** config.collections without the dropped documents. */
  type Registry = map<string, Key>

  datatype Error = Connection | NotFound | ServerError

  datatype Effect = Nothing | AtUser(stored: Key) | AtBuckets(internal: Key)

  /**
   What every call of one EnsureShardedCollection would answer, what other clients register
   between its lookup and its shardCollection (`race`), and what that command does.
   */
  datatype Calls = Calls(
    connect: Option<Error>, findUser: Option<Error>, findBuckets: Option<Error>,
    enable: Option<Error>, race: Registry, effect: Effect, reply: Option<Error>)

  /** Registered under a key equal to the declared one, or as timeseries buckets. */
  predicate Settled(reg: Registry, item: Item) {
    || (UserNs(item.db, item.coll) in reg && KeyEqual(reg[UserNs(item.db, item.coll)], KeyOf(item.fields)))
    || BucketsNs(item.db, item.coll) in reg
  }

  datatype Outcome = Skipped | Sharded | Drifted(current: Key) | Failed(error: Error)

  /**
   A good reply means an effect, or that another client did the same just before; a key stored
   at the user namespace is the one that was sent; and the server refuses to change the key of
   a collection that another client has just sharded.
   */
  predicate Answers(item: Item, c: Calls) {
    && (c.reply.None? ==> !c.effect.Nothing? || Settled(c.race, item))
    && (c.effect.AtUser? ==> SameKey(c.effect.stored, KeyOf(item.fields)))
    && (match c.effect
        case Nothing => true
        case AtUser(k) => UserNs(item.db, item.coll) in c.race ==> k == c.race[UserNs(item.db, item.coll)]
        case AtBuckets(k) => BucketsNs(item.db, item.coll) in c.race ==> k == c.race[BucketsNs(item.db, item.coll)])
  }

  datatype Found = Neither | Registered(key: Key, isBuckets: bool)

  function Lookup(reg: Registry, db: string, coll: string): Found {
    if UserNs(db, coll) in reg then Registered(reg[UserNs(db, coll)], false)
    else if BucketsNs(db, coll) in reg then Registered(reg[BucketsNs(db, coll)], true)
    else Neither
  }

  datatype Decision = DoShard | Skip | KeyDrift

  function Decide(cur: Found, key: Key): Decision {
    if cur.Neither? then DoShard
    else if cur.isBuckets || KeyEqual(cur.key, key) then Skip
    else KeyDrift
  }

  /** The error of the lookup, if any: the buckets lookup is made only when the first finds nothing. */
  function LookupError(reg: Registry, item: Item, c: Calls): Option<Error> {
    if c.connect.Some? then c.connect
    else if c.findUser.Some? then c.findUser
    else if UserNs(item.db, item.coll) in reg then None
    else c.findBuckets
  }

  function Effected(reg: Registry, item: Item, effect: Effect): Registry {
    match effect
    case Nothing => reg
    case AtUser(k) => reg[UserNs(item.db, item.coll) := k]
    case AtBuckets(k) => reg[BucketsNs(item.db, item.coll) := k]
  }

  /** The call reaches the server's shardCollection. */
  predicate Issues(reg: Registry, item: Item, c: Calls) {
    LookupError(reg, item, c).None? && Lookup(reg, item.db, item.coll).Neither? && c.enable.None?
  }

  /** The registry when the command arrives: only what is not registered yet can be added. */
  function Raced(reg: Registry, c: Calls): Registry {
    c.race + reg
  }

  function After(reg: Registry, item: Item, c: Calls): Registry {
    if Issues(reg, item, c) then Effected(Raced(reg, c), item, c.effect) else reg
  }

  function OutcomeOf(reg: Registry, item: Item, c: Calls): Outcome {
    var err := LookupError(reg, item, c);
    if err.Some? then Failed(err.value)
    else
      var cur := Lookup(reg, item.db, item.coll);
      match Decide(cur, KeyOf(item.fields))
      case Skip => Skipped
      case KeyDrift => Drifted(cur.key)
      case DoShard =>
        if c.enable.Some? then Failed(c.enable.value)
        else if c.reply.Some? then Failed(c.reply.value)
        else Sharded
  }

  /**
   `e` is what the first failing call answers, in the order in which the calls are made: connect,
   the user namespace, the buckets namespace if that finds nothing, and, if neither is
   registered, enableSharding and shardCollection.
   */
  predicate FailsWith(reg: Registry, item: Item, c: Calls, e: Error) {
    var user, buckets := UserNs(item.db, item.coll) in reg, BucketsNs(item.db, item.coll) in reg;
    || c.connect == Some(e)
    || (c.connect == None && c.findUser == Some(e))
    || (c.connect == None && c.findUser == None && !user && c.findBuckets == Some(e))
    || (c.connect == None && c.findUser == None && !user && c.findBuckets == None && !buckets
        && (c.enable == Some(e) || (c.enable == None && c.reply == Some(e))))
  }

  /** A call's error is passed on unchanged, and nothing else is an error. */
  lemma FailedIff(reg: Registry, item: Item, c: Calls, e: Error)
    ensures OutcomeOf(reg, item, c) == Failed(e) <==> FailsWith(reg, item, c, e)
  {
  }

  // ---------------------------------------------------------------- any number of passes

  /** One call of a pass, or another client sharding a collection that is not sharded yet. */
  datatype Event = Ensure(item: Item, calls: Calls) | Foreign(ns: string, key: Key)

  predicate Enabled(reg: Registry, e: Event) {
    match e
    case Ensure(item, c) => Answers(item, c)
    case Foreign(ns, _) => ns !in reg
  }

  function Apply(reg: Registry, e: Event): Registry {
    match e
    case Ensure(item, c) => After(reg, item, c)
    case Foreign(ns, k) => reg[ns := k]
  }

  predicate Legal(reg: Registry, es: seq<Event>)
    decreases |es|
  {
    es == [] || (Enabled(reg, es[0]) && Legal(Apply(reg, es[0]), es[1..]))
  }

  function Run(reg: Registry, es: seq<Event>): Registry
    decreases |es|
  {
    if es == [] then reg else Run(Apply(reg, es[0]), es[1..])
  }

  ghost predicate Extends(reg: Registry, reg': Registry) {
    forall ns | ns in reg :: ns in reg' && reg'[ns] == reg[ns]
  }

  /** Registered as a plain collection under a different key. */
  predicate Drifts(reg: Registry, item: Item) {
    UserNs(item.db, item.coll) in reg && !KeyEqual(reg[UserNs(item.db, item.coll)], KeyOf(item.fields))
  }

  lemma StepExtends(reg: Registry, e: Event)
    requires Enabled(reg, e)
    ensures Extends(reg, Apply(reg, e))
  {
  }

  /** Over any number of passes, lists, failures and foreign registrations no key is ever replaced. */
  lemma {:induction false} KeysAreNeverReplaced(reg: Registry, es: seq<Event>)
    requires Legal(reg, es)
    ensures Extends(reg, Run(reg, es))
    decreases |es|
  {
    if es != [] {
      StepExtends(reg, es[0]);
      KeysAreNeverReplaced(Apply(reg, es[0]), es[1..]);
    }
  }

  /** The registry in the middle of an event: what other clients have got in before the command. */
  function Midway(reg: Registry, e: Event): Registry {
    if e.Ensure? && Issues(reg, e.item, e.calls) then Raced(reg, e.calls) else reg
  }

  lemma MidwayExtends(reg: Registry, e: Event)
    requires Enabled(reg, e)
    ensures Extends(reg, Midway(reg, e)) && Extends(Midway(reg, e), Apply(reg, e))
  {
  }

  /**
   No key registered at any moment is ever replaced: not even one that another client gets in
   between the lookup and the command of some call.
   */
  lemma {:induction false} RacedKeysAreKept(reg: Registry, es: seq<Event>, k: nat)
    requires Legal(reg, es) && k < |es|
    ensures Extends(Midway(Run(reg, es[..k]), es[k]), Run(reg, es))
    decreases k
  {
    var next := Apply(reg, es[0]);
    if k == 0 {
      assert es[..0] == [];
      MidwayExtends(reg, es[0]);
      KeysAreNeverReplaced(next, es[1..]);
    } else {
      assert es[..k][1..] == es[1..][..k - 1];
      RacedKeysAreKept(next, es[1..], k - 1);
    }
  }

  /** An event is a shardCollection of db.coll that took effect, whatever the caller was told. */
  predicate ShardsIt(reg: Registry, e: Event, db: string, coll: string) {
    e.Ensure? && e.item.db == db && e.item.coll == coll && Issues(reg, e.item, e.calls) && !e.calls.effect.Nothing?
  }

  function TimesSharded(reg: Registry, es: seq<Event>, db: string, coll: string): nat
    decreases |es|
  {
    if es == [] then 0
    else (if ShardsIt(reg, es[0], db, coll) then 1 else 0) + TimesSharded(Apply(reg, es[0]), es[1..], db, coll)
  }

  /** shardCollection takes effect at most once per collection, and never on one already sharded. */
  lemma {:induction false} ShardedAtMostOnce(reg: Registry, es: seq<Event>, db: string, coll: string)
    requires Legal(reg, es)
    ensures TimesSharded(reg, es, db, coll) <= 1
    ensures !Lookup(reg, db, coll).Neither? ==> TimesSharded(reg, es, db, coll) == 0
    decreases |es|
  {
    if es != [] {
      StepExtends(reg, es[0]);
      ShardedAtMostOnce(Apply(reg, es[0]), es[1..], db, coll);
    }
  }

  lemma SameKeyComparesEqual(a: Key, b: Key)
    requires SameKey(a, b)
    ensures KeyEqual(a, b)
  {
  }

  /** What an outcome says about the registry right after the call. */
  lemma OutcomeTellsRegistry(reg: Registry, item: Item, c: Calls)
    requires Answers(item, c)
    ensures OutcomeOf(reg, item, c).Drifted? <==> LookupError(reg, item, c).None? && Drifts(reg, item)
    ensures OutcomeOf(reg, item, c).Drifted? ==> Drifts(After(reg, item, c), item)
    ensures OutcomeOf(reg, item, c) in {Skipped, Sharded} ==> Settled(After(reg, item, c), item)
  {
    if c.effect.AtUser? { SameKeyComparesEqual(c.effect.stored, KeyOf(item.fields)); }
  }

  /** Settled and drifting both last: the registry only ever grows. */
  lemma SettledLasts(reg: Registry, reg': Registry, item: Item)
    requires Extends(reg, reg')
    ensures Settled(reg, item) ==> Settled(reg', item)
    ensures Drifts(reg, item) ==> Drifts(reg', item)
  {
  }

  /** The items a run asks for. */
  predicate Covers(es: seq<Event>, items: seq<Item>) {
    forall i | 0 <= i < |es| :: es[i].Ensure? ==> es[i].item in items
  }

  /** A list whose every item is settled or drifting is a fixpoint: later passes leave the registry alone. */
  lemma {:induction false} SettledListIsFixpoint(reg: Registry, es: seq<Event>, items: seq<Item>)
    requires Legal(reg, es) && Covers(es, items) && forall i | 0 <= i < |es| :: es[i].Ensure?
    requires forall item | item in items :: Settled(reg, item) || Drifts(reg, item)
    ensures Run(reg, es) == reg
    decreases |es|
  {
    if es != [] {
      assert es[0].item in items;
      assert Apply(reg, es[0]) == reg;
      SettledListIsFixpoint(reg, es[1..], items);
    }
  }

  // ---------------------------------------------------------------- what a pass reports

  /** The message of one drift: which collection, under which key, instead of which. */
  datatype Drift = Drift(ns: string, current: Key, desired: Key)

  /** The drifts a run meets, in order. */
  function DriftsMet(reg: Registry, es: seq<Event>): seq<Drift>
    decreases |es|
  {
    if es == [] then []
    else DriftAt(reg, es[0]) + DriftsMet(Apply(reg, es[0]), es[1..])
  }

  function DriftAt(reg: Registry, e: Event): seq<Drift> {
    if e.Foreign? then []
    else match OutcomeOf(reg, e.item, e.calls)
      case Drifted(current) => [Drift(UserNs(e.item.db, e.item.coll), current, KeyOf(e.item.fields))]
      case _ => []
  }

  /** The errors a run meets, in order. */
  function ErrorsMet(reg: Registry, es: seq<Event>): seq<Error>
    decreases |es|
  {
    if es == [] then []
    else ErrorAt(reg, es[0]) + ErrorsMet(Apply(reg, es[0]), es[1..])
  }

  function ErrorAt(reg: Registry, e: Event): seq<Error> {
    if e.Ensure? && OutcomeOf(reg, e.item, e.calls).Failed? then [OutcomeOf(reg, e.item, e.calls).error] else []
  }

  /** A drift report about the item. */
  predicate Names(d: Drift, item: Item) {
    d.ns == UserNs(item.db, item.coll) && d.desired == KeyOf(item.fields)
  }

  predicate Reported(drifts: seq<Drift>, item: Item) {
    exists i | 0 <= i < |drifts| :: Names(drifts[i], item)
  }

  /** The report is true: the collection is registered under the key it names, which is not the declared one. */
  predicate True(reg: Registry, d: Drift) {
    d.ns in reg && reg[d.ns] == d.current && !KeyEqual(d.current, d.desired)
  }

  lemma ReportedIn(a: seq<Drift>, b: seq<Drift>, item: Item)
    requires Reported(a, item) || Reported(b, item)
    ensures Reported(a + b, item)
  {
    if i :| 0 <= i < |a| && Names(a[i], item) {
      assert (a + b)[i] == a[i];
    } else {
      var j :| 0 <= j < |b| && Names(b[j], item);
      assert (a + b)[|a| + j] == b[j];
    }
  }

  /** Reports stay true to the end of the run and name only what the run asked for. */
  lemma {:induction false} DriftsMetAreReal(reg: Registry, es: seq<Event>, d: Drift)
    requires Legal(reg, es) && d in DriftsMet(reg, es)
    ensures True(Run(reg, es), d)
    ensures exists i | 0 <= i < |es| :: es[i].Ensure? && Names(d, es[i].item)
    decreases |es|
  {
    KeysAreNeverReplaced(reg, es);
    if d in DriftAt(reg, es[0]) {
      assert Names(d, es[0].item);
    } else {
      DriftsMetAreReal(Apply(reg, es[0]), es[1..], d);
      var i :| 0 <= i < |es[1..]| && es[1..][i].Ensure? && Names(d, es[1..][i].item);
      assert es[i + 1] == es[1..][i];
    }
  }

  /** Item `k` of a run is found drifting when its turn comes. */
  predicate DriftsAt(reg: Registry, es: seq<Event>, k: nat)
    requires k < |es|
  {
    es[k].Ensure? && OutcomeOf(Run(reg, es[..k]), es[k].item, es[k].calls).Drifted?
  }

  /** The positions of those items. */
  function Drifting(reg: Registry, es: seq<Event>): (at: seq<nat>)
    ensures forall i | 0 <= i < |at| :: at[i] < |es|
    decreases |es|
  {
    if es == [] then []
    else
      var front := Drifting(reg, es[..|es| - 1]);
      if DriftsAt(reg, es, |es| - 1) then front + [|es| - 1] else front
  }

  lemma {:induction false} DriftingIsAll(reg: Registry, es: seq<Event>, k: nat)
    requires k < |es|
    ensures k in Drifting(reg, es) <==> DriftsAt(reg, es, k)
    decreases |es|
  {
    var n := |es| - 1;
    if k < n {
      DriftingIsAll(reg, es[..n], k);
      assert es[..n][..k] == es[..k];
    }
  }

  /** The reports come in the order of the items, one for each item found drifting. */
  lemma {:induction false} DriftsInOrder(reg: Registry, es: seq<Event>)
    ensures |Drifting(reg, es)| == |DriftsMet(reg, es)|
    ensures forall i, j | 0 <= i < j < |Drifting(reg, es)| :: Drifting(reg, es)[i] < Drifting(reg, es)[j]
    ensures forall i | 0 <= i < |Drifting(reg, es)| ::
              var e := es[Drifting(reg, es)[i]]; e.Ensure? && Names(DriftsMet(reg, es)[i], e.item)
    decreases |es|
  {
    if es != [] {
      var n := |es| - 1;
      DriftsInOrder(reg, es[..n]);
      assert es == es[..n] + [es[n]];
      DriftsSnoc(reg, es[..n], es[n]);
      assert DriftsAt(reg, es, n) <==> DriftAt(Run(reg, es[..n]), es[n]) != [];
    }
  }

  /**
   A run without errors leaves each item it asked for registered under an equal key, registered
   as timeseries buckets, or reported as drift; what was drifting before is always reported.
   */
  lemma {:induction false} CleanRunSettles(reg: Registry, es: seq<Event>, k: nat)
    requires Legal(reg, es) && ErrorsMet(reg, es) == [] && k < |es| && es[k].Ensure?
    ensures || Settled(Run(reg, es), es[k].item)
            || (Drifts(Run(reg, es), es[k].item) && Reported(DriftsMet(reg, es), es[k].item))
    ensures Drifts(reg, es[k].item) ==> Reported(DriftsMet(reg, es), es[k].item)
    decreases |es|
  {
    var reg1, item := Apply(reg, es[0]), es[k].item;
    StepExtends(reg, es[0]);
    SettledLasts(reg, reg1, item);
    if k > 0 {
      CleanRunSettles(reg1, es[1..], k - 1);
      if Reported(DriftsMet(reg1, es[1..]), item) { ReportedIn(DriftAt(reg, es[0]), DriftsMet(reg1, es[1..]), item); }
    } else {
      KeysAreNeverReplaced(reg1, es[1..]);
      SettledLasts(reg1, Run(reg1, es[1..]), item);
      OutcomeTellsRegistry(reg, item, es[0].calls);
      if OutcomeOf(reg, item, es[0].calls).Drifted? {
        assert Names(DriftAt(reg, es[0])[0], item);
        ReportedIn(DriftAt(reg, es[0]), DriftsMet(reg1, es[1..]), item);
      }
    }
  }

  /** Two declarations of one plain collection with different keys: a clean pass reports one of them. */
  lemma ConflictingItemsSurface(reg: Registry, es: seq<Event>, i: nat, j: nat)
    requires Legal(reg, es) && ErrorsMet(reg, es) == [] && i < |es| && j < |es| && es[i].Ensure? && es[j].Ensure?
    requires es[i].item.db == es[j].item.db && es[i].item.coll == es[j].item.coll
    requires Admitted(es[i].item.fields) && Admitted(es[j].item.fields) && es[i].item.fields != es[j].item.fields
    requires BucketsNs(es[i].item.db, es[i].item.coll) !in Run(reg, es)
    ensures Reported(DriftsMet(reg, es), es[i].item) || Reported(DriftsMet(reg, es), es[j].item)
  {
    CleanRunSettles(reg, es, i);
    CleanRunSettles(reg, es, j);
    BuiltKeysEqualIff(es[i].item.fields, es[j].item.fields);
    var a, b := es[i].item, es[j].item;
    if Settled(Run(reg, es), a) && Settled(Run(reg, es), b) {
      var k := Run(reg, es)[UserNs(a.db, a.coll)];
      assert KeyEqual(KeyOf(a.fields), KeyOf(b.fields)) by {
        forall n | 0 <= n < |k|
          ensures KeyOf(a.fields)[n].name == KeyOf(b.fields)[n].name
          ensures Normalize(KeyOf(a.fields)[n].value) == Normalize(KeyOf(b.fields)[n].value)
        {
          assert k[n].name == KeyOf(a.fields)[n].name && k[n].name == KeyOf(b.fields)[n].name;
        }
      }
    }
  }

  // ---------------------------------------------------------------- the reconcile pass

  /** Every declared shard has been added to the cluster. */
  predicate AllAdded(added: seq<bool>, count: nat) {
    |added| >= count && forall i: nat | i < count :: added[i]
  }

  datatype PassResult = Done | Requeue | Error

  lemma {:induction false} RunSnoc(reg: Registry, es: seq<Event>, e: Event)
    requires Legal(reg, es) && Enabled(Run(reg, es), e)
    ensures Legal(reg, es + [e]) && Run(reg, es + [e]) == Apply(Run(reg, es), e)
    decreases |es|
  {
    if es == [] {
      assert es + [e] == [e] && [e][1..] == [];
    } else {
      assert (es + [e])[0] == es[0] && (es + [e])[1..] == es[1..] + [e];
      RunSnoc(Apply(reg, es[0]), es[1..], e);
    }
  }

  lemma {:induction false} DriftsSnoc(reg: Registry, es: seq<Event>, e: Event)
    ensures DriftsMet(reg, es + [e]) == DriftsMet(reg, es) + DriftAt(Run(reg, es), e)
    decreases |es|
  {
    if es == [] {
      assert es + [e] == [e] && [e][1..] == [];
    } else {
      assert (es + [e])[0] == es[0] && (es + [e])[1..] == es[1..] + [e];
      var next := Apply(reg, es[0]);
      DriftsSnoc(next, es[1..], e);
      var a, b, c := DriftAt(reg, es[0]), DriftsMet(next, es[1..]), DriftAt(Run(next, es[1..]), e);
      assert DriftsMet(reg, es + [e]) == a + (b + c);
      assert DriftsMet(reg, es) == a + b && Run(reg, es) == Run(next, es[1..]);
    }
  }

  lemma {:induction false} ErrorsSnoc(reg: Registry, es: seq<Event>, e: Event)
    ensures ErrorsMet(reg, es + [e]) == ErrorsMet(reg, es) + ErrorAt(Run(reg, es), e)
    decreases |es|
  {
    if es == [] {
      assert es + [e] == [e] && [e][1..] == [];
    } else {
      assert (es + [e])[0] == es[0] && (es + [e])[1..] == es[1..] + [e];
      var next := Apply(reg, es[0]);
      ErrorsSnoc(next, es[1..], e);
      var a, b, c := ErrorAt(reg, es[0]), ErrorsMet(next, es[1..]), ErrorAt(Run(next, es[1..]), e);
      assert ErrorsMet(reg, es + [e]) == a + (b + c);
      assert ErrorsMet(reg, es) == a + b && Run(reg, es) == Run(next, es[1..]);
    }
  }

  ghost predicate Answered(items: seq<Item>, calls: seq<Calls>) {
    |calls| == |items| && forall i | 0 <= i < |items| :: Answers(items[i], calls[i])
  }

  /** The calls of a pass over the whole list. */
  function Asks(items: seq<Item>, calls: seq<Calls>): (es: seq<Event>)
    requires |calls| == |items|
    ensures |es| == |items| && forall i | 0 <= i < |items| :: es[i] == Ensure(items[i], calls[i])
  {
    seq(|items|, i requires 0 <= i < |items| => Ensure(items[i], calls[i]))
  }

  /** One more call at the end of a pass. */
  lemma PassStep(reg: Registry, es: seq<Event>, item: Item, c: Calls, o: Outcome)
    requires Legal(reg, es) && Answers(item, c) && o == OutcomeOf(Run(reg, es), item, c)
    ensures Legal(reg, es + [Ensure(item, c)])
    ensures Run(reg, es + [Ensure(item, c)]) == After(Run(reg, es), item, c)
    ensures DriftsMet(reg, es + [Ensure(item, c)]) ==
            DriftsMet(reg, es)
            + (if o.Drifted? then [Drift(UserNs(item.db, item.coll), o.current, KeyOf(item.fields))] else [])
    ensures ErrorsMet(reg, es + [Ensure(item, c)]) == ErrorsMet(reg, es) + (if o.Failed? then [o.error] else [])
  {
    RunSnoc(reg, es, Ensure(item, c));
    DriftsSnoc(reg, es, Ensure(item, c));
    ErrorsSnoc(reg, es, Ensure(item, c));
  }

  /** Item `k` of the list, met where the pass stands then, is answered with error `e`. */
  predicate AnsweredWith(reg: Registry, items: seq<Item>, calls: seq<Calls>, k: nat, e: Error)
    requires |calls| == |items| && k < |items|
  {
    FailsWith(Run(reg, Asks(items, calls)[..k]), items[k], calls[k], e)
  }

  /** The errors a pass meets are the answers its items get, spelled out call by call. */
  lemma {:induction false} ErrorsMetIff(reg: Registry, items: seq<Item>, calls: seq<Calls>, n: nat, e: Error)
    requires Answered(items, calls) && n <= |items| && Legal(reg, Asks(items, calls)[..n])
    ensures e in ErrorsMet(reg, Asks(items, calls)[..n]) <==>
            exists k: nat | k < n :: AnsweredWith(reg, items, calls, k, e)
  {
    var es := Asks(items, calls);
    if n > 0 {
      var m := n - 1;
      assert es[..n] == es[..m] + [Ensure(items[m], calls[m])];
      LegalPrefix(reg, es[..m], [Ensure(items[m], calls[m])]);
      ErrorsMetIff(reg, items, calls, m, e);
      ErrorsSnoc(reg, es[..m], Ensure(items[m], calls[m]));
      FailedIff(Run(reg, es[..m]), items[m], calls[m], e);
      assert AnsweredWith(reg, items, calls, m, e) <==> FailsWith(Run(reg, es[..m]), items[m], calls[m], e);
    }
  }

  lemma PassErrors(reg: Registry, items: seq<Item>, calls: seq<Calls>, trace: seq<Event>)
    requires Answered(items, calls) && |trace| <= |items| && trace == Asks(items, calls)[..|trace|] && Legal(reg, trace)
    ensures ServerError in ErrorsMet(reg, trace) <==>
            exists k: nat | k < |trace| :: AnsweredWith(reg, items, calls, k, ServerError)
    ensures ErrorsMet(reg, trace) == [] <==>
            forall k: nat, e: Error | k < |trace| :: !AnsweredWith(reg, items, calls, k, e)
  {
    ErrorsMetIff(reg, items, calls, |trace|, ServerError);
    var met := ErrorsMet(reg, trace);
    if met == [] {
      forall k: nat, e: Error | k < |trace| ensures !AnsweredWith(reg, items, calls, k, e) {
        ErrorsMetIff(reg, items, calls, |trace|, e);
      }
    } else {
      ErrorsMetIff(reg, items, calls, |trace|, met[0]);
    }
  }

  lemma {:induction false} LegalPrefix(reg: Registry, xs: seq<Event>, ys: seq<Event>)
    requires Legal(reg, xs + ys)
    ensures Legal(reg, xs)
    decreases |xs|
  {
    if xs != [] {
      assert (xs + ys)[0] == xs[0] && (xs + ys)[1..] == xs[1..] + ys;
      LegalPrefix(Apply(reg, xs[0]), xs[1..], ys);
    }
  }

  /** Where a pass stands after its first calls. */
  ghost predicate Reached(reg: Registry, es: seq<Event>, now: Registry, drifts: seq<Drift>, errors: seq<Error>) {
    && Legal(reg, es) && Run(reg, es) == now
    && DriftsMet(reg, es) == drifts && ErrorsMet(reg, es) == errors
  }

  lemma ReachedNext(reg: Registry, items: seq<Item>, calls: seq<Calls>, i: nat, now: Registry,
                    drifts: seq<Drift>, errors: seq<Error>)
    requires Answered(items, calls) && i < |items| && Reached(reg, Asks(items, calls)[..i], now, drifts, errors)
    ensures var o := OutcomeOf(now, items[i], calls[i]);
            var ns := UserNs(items[i].db, items[i].coll);
            Reached(reg, Asks(items, calls)[..i + 1], After(now, items[i], calls[i]),
                    drifts + (if o.Drifted? then [Drift(ns, o.current, KeyOf(items[i].fields))] else []),
                    errors + (if o.Failed? then [o.error] else []))
  {
    var es := Asks(items, calls);
    assert es[..i + 1] == es[..i] + [Ensure(items[i], calls[i])];
    PassStep(reg, es[..i], items[i], calls[i], OutcomeOf(now, items[i], calls[i]));
  }

  class Manager {
    var registered: Registry
    var condition: Option<seq<Drift>>     // ShardKeyDrift on the pass's copy of the status
    var saved: Option<seq<Drift>>         // ShardKeyDrift as the API server has it

    constructor (reg: Registry, saved: Option<seq<Drift>>)
      ensures registered == reg && condition == saved && this.saved == saved
    {
      registered, condition, this.saved := reg, saved, saved;
    }

    method LookupShardedCollectionAny(item: Item, c: Calls) returns (cur: Found, err: Option<Error>)
      requires c.connect.None?
      ensures err == LookupError(registered, item, c)
      ensures err.None? ==> cur == Lookup(registered, item.db, item.coll)
    {
      if c.findUser.Some? { return Neither, c.findUser; }
      var userNs := UserNs(item.db, item.coll);
      if userNs in registered { return Registered(registered[userNs], false), None; }
      if c.findBuckets.Some? { return Neither, c.findBuckets; }
      var bucketsNs := BucketsNs(item.db, item.coll);
      if bucketsNs in registered { return Registered(registered[bucketsNs], true), None; }
      return Neither, None;
    }

    method EnsureShardedCollection(item: Item, key: Key, c: Calls) returns (o: Outcome)
      requires key == KeyOf(item.fields)
      modifies this`registered
      ensures registered == After(old(registered), item, c)
      ensures o == OutcomeOf(old(registered), item, c)
    {
      if c.connect.Some? { return Failed(c.connect.value); }
      var cur, err := LookupShardedCollectionAny(item, c);
      if err.Some? { return Failed(err.value); }
      match Decide(cur, key) {
        case Skip => return Skipped;
        case KeyDrift => return Drifted(cur.key);
        case DoShard =>
      }
      if c.enable.Some? { return Failed(c.enable.value); }
      registered := Effected(Raced(registered, c), item, c.effect);
      if c.reply.Some? { return Failed(c.reply.value); }
      return Sharded;
    }

    /** The loop over the list: it goes through all of it unless a server error stops it. */
    method EnsureAll(items: seq<Item>, calls: seq<Calls>)
      returns (drifts: seq<Drift>, requeue: bool, fatal: bool, ghost trace: seq<Event>)
      requires Answered(items, calls)
      modifies this`registered
      ensures Legal(old(registered), trace) && Run(old(registered), trace) == registered
      ensures |trace| <= |items| && trace == Asks(items, calls)[..|trace|]
      ensures fatal <==> ServerError in ErrorsMet(old(registered), trace)
      ensures !fatal ==> |trace| == |items| && drifts == DriftsMet(old(registered), trace)
      ensures !fatal ==> (requeue <==> ErrorsMet(old(registered), trace) != [])
      ensures items != [] ==> trace != []
    {
      ghost var es, errors: seq<Error> := Asks(items, calls), [];
      drifts, requeue, fatal := [], false, false;
      for i := 0 to |items|
        invariant Reached(old(registered), es[..i], registered, drifts, errors)
        invariant requeue <==> errors != []
        invariant ServerError !in errors
      {
        ReachedNext(old(registered), items, calls, i, registered, drifts, errors);
        var key := BuildShardKey(items[i].fields);
        var o := EnsureShardedCollection(items[i], key, calls[i]);
        match o {
          case Skipped =>
          case Sharded =>
          case Drifted(current) =>
            drifts := drifts + [Drift(UserNs(items[i].db, items[i].coll), current, key)];
          case Failed(e) =>
            errors := errors + [e];
            if e == ServerError {
              fatal, trace := true, es[..i + 1];
              return;
            }
            requeue := true;
        }
      }
      trace := es[..|items|];
    }

    /**
     One pass is a run of the protocol; the drifts it met become the condition, written at once
     when the pass is to be repeated.
     */
    method ReconcileShardedCollections(items: seq<Item>, ready: bool, added: seq<bool>, count: nat,
                                       password: bool, pod: bool, calls: seq<Calls>, saves: bool)
      returns (res: PassResult, ghost trace: seq<Event>)
      requires Answered(items, calls)
      modifies this
      ensures Legal(old(registered), trace) && Run(old(registered), trace) == registered
      ensures |trace| <= |items| && trace == Asks(items, calls)[..|trace|]
      ensures trace != [] <==> items != [] && ready && AllAdded(added, count) && password && pod
      ensures res == Done <==> |trace| == |items| && ErrorsMet(old(registered), trace) == []
      ensures ServerError in ErrorsMet(old(registered), trace) ==>
                res == Error && condition == old(condition) && saved == old(saved)
      ensures trace != [] ==>
                (res == Error <==>
                 || (exists k: nat | k < |trace| :: AnsweredWith(old(registered), items, calls, k, ServerError))
                 || (!saves && DriftsMet(old(registered), trace) != [] && ErrorsMet(old(registered), trace) != []))
      ensures trace != [] ==>
                (res == Done <==>
                 forall k: nat, e: Error | k < |trace| :: !AnsweredWith(old(registered), items, calls, k, e))
      ensures ServerError !in ErrorsMet(old(registered), trace) && trace != [] ==> |trace| == |items|
      ensures ServerError !in ErrorsMet(old(registered), trace) && |trace| == |items| ==>
                var drifts := DriftsMet(old(registered), trace);
                && condition == (if drifts == [] then None else Some(drifts))
                && (res == Error <==> ErrorsMet(old(registered), trace) != [] && drifts != [] && !saves)
                && saved == (if res == Requeue && drifts != [] then Some(drifts) else old(saved))
      ensures items != [] && trace == [] ==>
                && res == (if ready && AllAdded(added, count) && !password then Error else Requeue)
                && condition == old(condition) && saved == old(saved)
    {
      trace := [];
      if |items| == 0 {
        condition := None;
        return Done, trace;
      }
      if !ready { return Requeue, trace; }
      if |added| < count { return Requeue, trace; }
      for i := 0 to count
        invariant forall j | 0 <= j < i :: added[j]
      {
        if !added[i] { return Requeue, trace; }
      }
      if !password { return Error, trace; }
      if !pod { return Requeue, trace; }
      var drifts, requeue, fatal;
      drifts, requeue, fatal, trace := EnsureAll(items, calls);
      PassErrors(old(registered), items, calls, trace);
      if fatal { return Error, trace; }
      condition := if |drifts| > 0 then Some(drifts) else None;
      if requeue {
        if |drifts| > 0 {
          if !saves { return Error, trace; }
          saved := condition;
        }
        return Requeue, trace;
      }
      return Done, trace;
    }
  }
}
