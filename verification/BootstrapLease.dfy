/**
 The lease that serialises the admin-user bootstrap of one replica set
 (internal/controller/bootstrap_lease.go).  Reconcile loops race for one Lease object on the
 API server: they stamp it, enter the bootstrap section, and delete it on the way out.

 The protocol is modelled step by step, so that other loops, the clock, stale cache reads,
 failed calls and lost responses may interleave at every API call.
 */
module BootstrapLease {
  import opened Options

  /** Micro-seconds, the precision at which a Lease stores its times. */
  type Time = int

  const SECOND: Time := 1_000_000

  /** bootstrapLeaseDuration, in seconds. */
  const LEASE_SECONDS: int := 30

  const LEASE_TIME: Time := LEASE_SECONDS * SECOND

  /** A stored Lease: the resource version and the four pointers of its spec. */
  datatype Lease = Lease(version: nat, holder: Option<string>, seconds: Option<int>,
                         acquired: Option<Time>, renewed: Option<Time>)

  /** Where a reconcile loop stands inside acquireBootstrapLease and the section it guards. */
  datatype Phase =
    | Idle
    | Began(now: Time)                        // now := time.Now(), before the Get
    | Saw(now: Time, read: Option<Lease>)     // the Get answered, maybe from a stale cache
    | Cleared(now: Time, seen: Lease)         // the deadline check did not report busy
    | Holding(stamp: Time)                    // inside the bootstrap section

  /** The API server's view of the lease, every lease it ever stored, and the racing loops. */
  datatype World = World(clock: Time, lease: Option<Lease>, nextVersion: nat,
                         past: set<Lease>, loops: map<nat, Phase>)

  datatype Event =
    | Tick(elapsed: nat)
    | Begin(p: nat)
    | Get(p: nat, result: Option<Lease>)
    | Check(p: nat)
    | Create(p: nat, answered: bool)
    | Update(p: nat, answered: bool)
    | Abort(p: nat)                           // API error, crash, or a delete that failed
    | Release(p: nat)                         // the delete reached the server

  /** The lease a loop writes: every field overwritten, both times equal to its `now`. */
  function Stamped(version: nat, me: string, now: Time): Lease {
    Lease(version, Some(me), Some(LEASE_SECONDS), Some(now), Some(now))
  }

  /** The busy test: another holder, all fields present, and the deadline not reached. */
  predicate Blocks(l: Lease, me: string, at: Time) {
    && l.holder.Some? && l.holder.value != me
    && l.renewed.Some? && l.seconds.Some?
    && at < l.renewed.value + l.seconds.value * SECOND
  }

  // ---------------------------------------------------------------- the steps

  predicate Enabled(w: World, e: Event) {
    match e
    case Tick(_) => true
    case Begin(p) => p in w.loops && w.loops[p].Idle?
    case Get(p, r) => p in w.loops && w.loops[p].Began? && (r.Some? ==> r.value in w.past)
    case Check(p) => p in w.loops && w.loops[p].Saw? && w.loops[p].read.Some?
    case Create(p, _) => p in w.loops && w.loops[p].Saw? && w.loops[p].read.None?
    case Update(p, _) => p in w.loops && w.loops[p].Cleared?
    case Abort(p) => p in w.loops
    case Release(p) => p in w.loops && w.loops[p].Holding?
  }

  function Goto(w: World, p: nat, phase: Phase): World {
    w.(loops := w.loops[p := phase])
  }

  /** A write the server accepted: a new version, remembered for ever. */
  function Store(w: World, me: string, now: Time): World {
    var l := Stamped(w.nextVersion, me, now);
    w.(lease := Some(l), nextVersion := w.nextVersion + 1, past := w.past + {l})
  }

  function Apply(ids: map<nat, string>, w: World, e: Event): World
    requires Enabled(w, e) && ids.Keys == w.loops.Keys
  {
    match e
    case Tick(d) => w.(clock := w.clock + d)
    case Begin(p) => Goto(w, p, Began(w.clock))
    case Get(p, r) => Goto(w, p, Saw(w.loops[p].now, r))
    case Check(p) =>
      var l := w.loops[p].read.value;
      if Blocks(l, ids[p], w.clock) then Goto(w, p, Idle) else Goto(w, p, Cleared(w.loops[p].now, l))
    case Create(p, answered) =>
      var now := w.loops[p].now;
      if w.lease.Some? then Goto(w, p, Idle)                       // AlreadyExists: busy
      else Goto(Store(w, ids[p], now), p, if answered then Holding(now) else Idle)
    case Update(p, answered) =>
      var now := w.loops[p].now;
      if w.lease.None? || w.lease.value.version != w.loops[p].seen.version then
        Goto(w, p, Idle)                                           // Conflict or NotFound
      else Goto(Store(w, ids[p], now), p, if answered then Holding(now) else Idle)
    case Abort(p) => Goto(w, p, Idle)
    case Release(p) => Goto(w.(lease := None), p, Idle)            // no precondition on the delete
  }

  predicate Legal(ids: map<nat, string>, w: World, es: seq<Event>)
    requires ids.Keys == w.loops.Keys
    decreases |es|
  {
    es == [] || (Enabled(w, es[0]) && Legal(ids, Apply(ids, w, es[0]), es[1..]))
  }

  function Run(ids: map<nat, string>, w: World, es: seq<Event>): (r: World)
    requires ids.Keys == w.loops.Keys && Legal(ids, w, es)
    ensures r.loops.Keys == w.loops.Keys
    decreases |es|
  {
    if es == [] then w else Run(ids, Apply(ids, w, es[0]), es[1..])
  }

  // ---------------------------------------------------------------- the property

  ghost predicate Init(w: World) {
    && (forall p | p in w.loops :: w.loops[p].Idle?)
    && w.past == (if w.lease.Some? then {w.lease.value} else {})
    && (w.lease.Some? ==> w.lease.value.version < w.nextVersion)
  }

  /** Every loop in the section is still less than 30 s away from the stamp it wrote. */
  ghost predicate Timely(w: World) {
    forall p | p in w.loops && w.loops[p].Holding? :: w.clock < w.loops[p].stamp + 30 * SECOND
  }

  ghost predicate AlwaysTimely(ids: map<nat, string>, w: World, es: seq<Event>)
    requires ids.Keys == w.loops.Keys && Legal(ids, w, es)
    decreases |es|
  {
    Timely(w) && (es == [] || AlwaysTimely(ids, Apply(ids, w, es[0]), es[1..]))
  }

  ghost predicate Exclusive(w: World) {
    forall p, q | p in w.loops && q in w.loops && w.loops[p].Holding? && w.loops[q].Holding? :: p == q
  }

  ghost predicate Distinct(ids: map<nat, string>) {
    forall p, q | p in ids && q in ids && ids[p] == ids[q] :: p == q
  }

  /** The lease on the server is the one loop `p` wrote with its stamp. */
  ghost predicate Owns(ids: map<nat, string>, w: World, p: nat)
    requires p in w.loops && w.loops[p].Holding? && p in ids
  {
    w.lease.Some? && w.lease.value == Stamped(w.lease.value.version, ids[p], w.loops[p].stamp)
  }

  /** Versions identify leases, and reads are of leases that were once stored. */
  ghost predicate History(w: World) {
    && (forall l | l in w.past :: l.version < w.nextVersion)
    && (forall l, k | l in w.past && k in w.past && l.version == k.version :: l == k)
    && (w.lease.Some? ==> w.lease.value in w.past)
  }

  ghost predicate PhaseOk(ids: map<nat, string>, w: World, p: nat)
    requires p in w.loops && p in ids
  {
    match w.loops[p]
    case Idle => true
    case Began(_) => true
    case Saw(_, r) => r.Some? ==> r.value in w.past
    case Cleared(_, l) => l in w.past && !Blocks(l, ids[p], w.clock)
    case Holding(_) => Owns(ids, w, p)
  }

  ghost predicate Inv(ids: map<nat, string>, w: World)
    requires ids.Keys == w.loops.Keys
  {
    History(w) && forall p | p in w.loops :: PhaseOk(ids, w, p)
  }

  /** While one loop owns the lease, no other loop's cleared takeover can still match it. */
  lemma TakeoverFindsNoHolder(ids: map<nat, string>, w: World, p: nat, q: nat)
    requires ids.Keys == w.loops.Keys && Inv(ids, w) && Timely(w) && Distinct(ids)
    requires p in w.loops && w.loops[p].Holding?
    requires q in w.loops && w.loops[q].Cleared?
    ensures w.lease.Some? && w.lease.value.version != w.loops[q].seen.version
  {
    assert PhaseOk(ids, w, p) && PhaseOk(ids, w, q);
  }

  /** The invariant makes every holder the unique owner of the stored lease. */
  lemma OwnersAreUnique(ids: map<nat, string>, w: World)
    requires ids.Keys == w.loops.Keys && Inv(ids, w) && Distinct(ids)
    ensures Exclusive(w)
  {
    forall p, q | p in w.loops && q in w.loops && w.loops[p].Holding? && w.loops[q].Holding?
      ensures p == q
    {
      assert PhaseOk(ids, w, p) && PhaseOk(ids, w, q);
    }
  }

  /** Whatever happens, a holder that stays inside keeps the lease. */
  lemma HolderKeepsPhase(ids: map<nat, string>, w: World, e: Event, q: nat)
    requires ids.Keys == w.loops.Keys && Inv(ids, w) && Timely(w) && Distinct(ids) && Enabled(w, e)
    requires q in w.loops && w.loops[q].Holding?
    ensures PhaseOk(ids, Apply(ids, w, e), q)
  {
    assert PhaseOk(ids, w, q);
    if e.Update? {
      TakeoverFindsNoHolder(ids, w, q, e.p);
    } else if e.Release? {
      OwnersAreUnique(ids, w);
    }
  }

  lemma StepKeepsPhase(ids: map<nat, string>, w: World, e: Event, q: nat)
    requires ids.Keys == w.loops.Keys && Inv(ids, w) && Timely(w) && Distinct(ids) && Enabled(w, e)
    requires q in w.loops
    ensures PhaseOk(ids, Apply(ids, w, e), q)
  {
    assert PhaseOk(ids, w, q);
    if w.loops[q].Holding? {
      HolderKeepsPhase(ids, w, e, q);
    }
  }

  /** Each of the protocol's steps keeps the invariant, whatever the other loops are doing. */
  lemma StepKeepsInv(ids: map<nat, string>, w: World, e: Event)
    requires ids.Keys == w.loops.Keys && Inv(ids, w) && Timely(w) && Distinct(ids) && Enabled(w, e)
    ensures Inv(ids, Apply(ids, w, e))
  {
    forall q | q in w.loops ensures PhaseOk(ids, Apply(ids, w, e), q) {
      StepKeepsPhase(ids, w, e, q);
    }
    assert History(Apply(ids, w, e));
  }

  /**
   Mutual exclusion.  In every interleaving of loops with distinct identities, with reads that
   may return any lease ever stored or none, with lost responses, crashes and failed deletes,
   no two loops are in the bootstrap section at once, and the one inside still owns the lease
   on the server, provided no loop stays in the section until 30 s past its stamp.
   */
  lemma {:induction false} MutualExclusion(ids: map<nat, string>, w: World, es: seq<Event>)
    requires ids.Keys == w.loops.Keys && Inv(ids, w) && Distinct(ids)
    requires Legal(ids, w, es) && AlwaysTimely(ids, w, es)
    ensures Exclusive(Run(ids, w, es)) && Inv(ids, Run(ids, w, es))
    decreases |es|
  {
    if es == [] {
      OwnersAreUnique(ids, w);
    } else {
      StepKeepsInv(ids, w, es[0]);
      MutualExclusion(ids, Apply(ids, w, es[0]), es[1..]);
    }
  }

  lemma InitEstablishesInv(ids: map<nat, string>, w: World)
    requires ids.Keys == w.loops.Keys && Init(w)
    ensures Inv(ids, w)
  {
  }

  // ---------------------------------------------------------------- leaving

  /** Loop `p` leaves and loop `q` enters. */
  function HandOver(p: nat, q: nat): seq<Event> {
    [Release(p)] + ([Begin(q)] + ([Get(q, None)] + ([Create(q, true)] + [])))
  }

  /**
   Leaving the section frees it: right after the holder's release another loop finds no lease
   and gets in at once, without waiting for any deadline.
   */
  lemma ReleaseFrees(ids: map<nat, string>, w: World, p: nat, q: nat)
    requires ids.Keys == w.loops.Keys && p in w.loops && w.loops[p].Holding?
    requires q in w.loops && q != p && w.loops[q].Idle?
    ensures Legal(ids, w, HandOver(p, q))
    ensures var r := Run(ids, w, HandOver(p, q));
            && r.loops == w.loops[p := Idle][q := Holding(w.clock)]
            && r.lease == Some(Stamped(w.nextVersion, ids[q], w.clock)) && r.clock == w.clock
  {
    var w1 := Apply(ids, w, Release(p));
    var w2 := Apply(ids, w1, Begin(q));
    var w3 := Apply(ids, w2, Get(q, None));
    var w4 := Apply(ids, w3, Create(q, true));
    RunCons(ids, w3, Create(q, true), []);
    RunCons(ids, w2, Get(q, None), [Create(q, true)] + []);
    RunCons(ids, w1, Begin(q), [Get(q, None)] + ([Create(q, true)] + []));
    RunCons(ids, w, Release(p), [Begin(q)] + ([Get(q, None)] + ([Create(q, true)] + [])));
    assert w4.loops == w.loops[p := Idle][q := Holding(w.clock)];
  }

  /** A live lease keeps every other loop out: whoever reads it is told busy and changes nothing. */
  lemma LiveLeaseBlocks(ids: map<nat, string>, w: World, p: nat, q: nat)
    requires ids.Keys == w.loops.Keys && Inv(ids, w) && Timely(w) && Distinct(ids)
    requires p in w.loops && w.loops[p].Holding? && q in w.loops && q != p
    requires w.loops[q].Saw? && w.loops[q].read == w.lease
    ensures Enabled(w, Check(q)) && Apply(ids, w, Check(q)) == w.(loops := w.loops[q := Idle])
  {
    assert PhaseOk(ids, w, p);
  }

  // ---------------------------------------------------------------- when it fails

  /** Every timely run of these loops, from any start, excludes: what the lease is for. */
  ghost predicate AlwaysExclusive(ids: map<nat, string>) {
    forall w: World, es: seq<Event> ::
      ids.Keys == w.loops.Keys && Init(w) && Legal(ids, w, es) && AlwaysTimely(ids, w, es) ==>
        Exclusive(Run(ids, w, es))
  }

  function IdleLoops(ids: map<nat, string>): map<nat, Phase> {
    map p | p in ids :: Idle
  }

  function Start(ids: map<nat, string>): World {
    World(0, None, 0, {}, IdleLoops(ids))
  }

  /** Loop `a` creates the lease at time 0 and holds it. */
  function FirstIn(a: nat): seq<Event> {
    [Begin(a)] + ([Get(a, None)] + ([Create(a, true)] + []))
  }

  /** Loop `b` reads lease `l`, passes the busy test and overwrites it. */
  function TakeOver(b: nat, l: Lease): seq<Event> {
    [Begin(b)] + ([Get(b, Some(l))] + ([Check(b)] + ([Update(b, true)] + [])))
  }

  lemma RunCons(ids: map<nat, string>, w: World, e: Event, rest: seq<Event>)
    requires ids.Keys == w.loops.Keys && Enabled(w, e) && Legal(ids, Apply(ids, w, e), rest)
    ensures Legal(ids, w, [e] + rest) && Run(ids, w, [e] + rest) == Run(ids, Apply(ids, w, e), rest)
    ensures Timely(w) && AlwaysTimely(ids, Apply(ids, w, e), rest) ==> AlwaysTimely(ids, w, [e] + rest)
  {
    assert ([e] + rest)[0] == e && ([e] + rest)[1..] == rest;
  }

  /** Runs can be glued: the second part starts where the first one ended. */
  lemma {:induction false} RunConcat(ids: map<nat, string>, w: World, es: seq<Event>, fs: seq<Event>)
    requires ids.Keys == w.loops.Keys && Legal(ids, w, es) && Legal(ids, Run(ids, w, es), fs)
    requires AlwaysTimely(ids, w, es)
    ensures Legal(ids, w, es + fs) && Run(ids, w, es + fs) == Run(ids, Run(ids, w, es), fs)
    ensures AlwaysTimely(ids, Run(ids, w, es), fs) ==> AlwaysTimely(ids, w, es + fs)
    decreases |es|
  {
    if es == [] {
      assert es + fs == fs;
    } else {
      assert (es + fs)[0] == es[0] && (es + fs)[1..] == es[1..] + fs;
      RunConcat(ids, Apply(ids, w, es[0]), es[1..], fs);
    }
  }

  lemma FirstInHolds(ids: map<nat, string>, a: nat)
    requires a in ids
    ensures Legal(ids, Start(ids), FirstIn(a)) && AlwaysTimely(ids, Start(ids), FirstIn(a))
    ensures var l := Stamped(0, ids[a], 0);
            Run(ids, Start(ids), FirstIn(a)) ==
            World(0, Some(l), 1, {l}, IdleLoops(ids)[a := Holding(0)])
  {
    var w0 := Start(ids);
    var w1 := Apply(ids, w0, Begin(a));
    var w2 := Apply(ids, w1, Get(a, None));
    var w3 := Apply(ids, w2, Create(a, true));
    RunCons(ids, w2, Create(a, true), []);
    RunCons(ids, w1, Get(a, None), [Create(a, true)] + []);
    RunCons(ids, w0, Begin(a), [Get(a, None)] + ([Create(a, true)] + []));
    assert w3.loops == IdleLoops(ids)[a := Holding(0)];
  }

  /** A loop whose busy test passes on the stored lease takes it over, holder or not. */
  lemma TakeOverHolds(ids: map<nat, string>, w: World, b: nat)
    requires ids.Keys == w.loops.Keys && b in w.loops && w.loops[b].Idle?
    requires w.lease.Some? && w.lease.value in w.past && !Blocks(w.lease.value, ids[b], w.clock)
    ensures Legal(ids, w, TakeOver(b, w.lease.value))
    ensures var r := Run(ids, w, TakeOver(b, w.lease.value));
            r.loops == w.loops[b := Holding(w.clock)] && r.clock == w.clock
    ensures Timely(w) ==> AlwaysTimely(ids, w, TakeOver(b, w.lease.value))
  {
    var l := w.lease.value;
    var w1 := Apply(ids, w, Begin(b));
    var w2 := Apply(ids, w1, Get(b, Some(l)));
    var w3 := Apply(ids, w2, Check(b));
    var w4 := Apply(ids, w3, Update(b, true));
    RunCons(ids, w3, Update(b, true), []);
    RunCons(ids, w2, Check(b), [Update(b, true)] + []);
    RunCons(ids, w1, Get(b, Some(l)), [Check(b)] + ([Update(b, true)] + []));
    RunCons(ids, w, Begin(b), [Get(b, Some(l))] + ([Check(b)] + ([Update(b, true)] + [])));
    assert w4.loops == w.loops[b := Holding(w.clock)];
  }

  /**
   Two loops of one process share `host-pid`: the second one recognises its own lease, renews
   it and enters beside the first, well within 30 s.
   */
  lemma SharedIdentityBreaksExclusion(ids: map<nat, string>, a: nat, b: nat)
    returns (es: seq<Event>)
    requires a in ids && b in ids && a != b && ids[a] == ids[b]
    ensures Legal(ids, Start(ids), es) && AlwaysTimely(ids, Start(ids), es)
    ensures !Exclusive(Run(ids, Start(ids), es))
  {
    FirstInHolds(ids, a);
    var w := Run(ids, Start(ids), FirstIn(a));
    TakeOverHolds(ids, w, b);
    es := FirstIn(a) + TakeOver(b, w.lease.value);
    RunConcat(ids, Start(ids), FirstIn(a), TakeOver(b, w.lease.value));
    var r := Run(ids, Start(ids), es);
    assert r.loops[a].Holding? && r.loops[b].Holding?;
  }

  /** The lease excludes in all timely runs exactly when no two loops share an identity. */
  lemma ExclusiveIffIdentitiesDistinct(ids: map<nat, string>)
    ensures AlwaysExclusive(ids) <==> Distinct(ids)
  {
    if Distinct(ids) {
      forall w: World, es: seq<Event> |
        ids.Keys == w.loops.Keys && Init(w) && Legal(ids, w, es) && AlwaysTimely(ids, w, es)
        ensures Exclusive(Run(ids, w, es))
      {
        InitEstablishesInv(ids, w);
        MutualExclusion(ids, w, es);
      }
    } else {
      var a, b :| a in ids && b in ids && ids[a] == ids[b] && a != b;
      var es := SharedIdentityBreaksExclusion(ids, a, b);
      assert ids.Keys == Start(ids).loops.Keys && Init(Start(ids));
    }
  }

  /** The 30 s bound is tight: a holder that stays until exactly 30 s can meet its successor. */
  lemma OverstayBreaksExclusion(ids: map<nat, string>, a: nat, b: nat) returns (es: seq<Event>)
    requires a in ids && b in ids && a != b
    ensures Legal(ids, Start(ids), es)
    ensures var r := Run(ids, Start(ids), es);
            r.clock == 30_000_000 && r.loops[a] == Holding(0) && r.loops[b] == Holding(30_000_000)
  {
    FirstInHolds(ids, a);
    var w := Run(ids, Start(ids), FirstIn(a));
    var late := Apply(ids, w, Tick(LEASE_TIME));
    TakeOverHolds(ids, late, b);
    var prefix := [Tick(LEASE_TIME)] + TakeOver(b, late.lease.value);
    RunCons(ids, w, Tick(LEASE_TIME), TakeOver(b, late.lease.value));
    RunConcat(ids, Start(ids), FirstIn(a), prefix);
    es := FirstIn(a) + prefix;
  }

  // ---------------------------------------------------------------- the Go control flow

  datatype ReadResult = Found(lease: Lease) | NotFound | ReadError

  datatype Outcome = Acquired | Busy | Failed

  /** The one Lease object of a replica set, as the API server stores it. */
  class LeaseStore {
    var lease: Option<Lease>
    var nextVersion: nat

    method Create(me: string, now: Time) returns (ok: bool)
      modifies this
      ensures ok <==> old(lease).None?
      ensures ok ==> lease == Some(Stamped(old(nextVersion), me, now)) && nextVersion == old(nextVersion) + 1
      ensures !ok ==> lease == old(lease) && nextVersion == old(nextVersion)
    {
      ok := lease.None?;
      if ok {
        lease, nextVersion := Some(Stamped(nextVersion, me, now)), nextVersion + 1;
      }
    }

    /** Compare-and-swap on the resource version of the lease that was read. */
    method Update(l: Lease) returns (r: Outcome)
      modifies this
      ensures r == Acquired <==> old(lease).Some? && old(lease).value.version == l.version
      ensures r == Failed <==> old(lease).None?
      ensures r == Acquired ==> lease == Some(l.(version := old(nextVersion))) && nextVersion == old(nextVersion) + 1
      ensures r != Acquired ==> lease == old(lease) && nextVersion == old(nextVersion)
    {
      if lease.None? { return Failed; }
      if lease.value.version != l.version { return Busy; }
      lease, nextVersion := Some(l.(version := nextVersion)), nextVersion + 1;
      return Acquired;
    }

    /** releaseBootstrapLease: a delete without a precondition; that it may fail is ignored. */
    method ReleaseBootstrapLease(deleted: bool)
      modifies this`lease
      ensures deleted ==> lease.None?
      ensures !deleted ==> lease == old(lease)
    {
      if deleted { lease := None; }
    }
  }

  /** The events loop `p` goes through once its Get has answered `read`. */
  function AcquireEvents(p: nat, read: ReadResult, blocked: bool): seq<Event> {
    match read
    case ReadError => [Abort(p)] + []
    case NotFound => [Get(p, None)] + ([Create(p, true)] + [])
    case Found(l) => [Get(p, Some(l))] + ([Check(p)] + (if blocked then [] else [Update(p, true)] + []))
  }

  /**
   acquireBootstrapLease, undisturbed between its Get and its write: it acquires exactly when
   the lease is absent as read, or unblocked and unchanged since it was read, and then every
   field carries this loop's stamp; otherwise the store is untouched.
   */
  method AcquireBootstrapLease(api: LeaseStore, me: string, read: ReadResult, now: Time, checkedAt: Time)
    returns (r: Outcome)
    modifies api
    ensures r == Acquired ==> api.lease == Some(Stamped(old(api.nextVersion), me, now))
    ensures r == Acquired ==> api.nextVersion == old(api.nextVersion) + 1
    ensures r != Acquired ==> api.lease == old(api.lease) && api.nextVersion == old(api.nextVersion)
    ensures r == Acquired <==>
            || (read.NotFound? && old(api.lease).None?)
            || (read.Found? && !Blocks(read.lease, me, checkedAt) &&
                old(api.lease).Some? && old(api.lease).value.version == read.lease.version)
    ensures r == Failed <==>
            || read.ReadError?
            || (read.Found? && !Blocks(read.lease, me, checkedAt) && old(api.lease).None?)
  {
    match read {
      case NotFound =>
        var created := api.Create(me, now);
        return if created then Acquired else Busy;
      case ReadError =>
        return Failed;
      case Found(existing) =>
        if existing.holder.Some? && existing.holder.value != me && existing.renewed.Some? && existing.seconds.Some? {
          var deadline := existing.renewed.value + existing.seconds.value * SECOND;
          if checkedAt < deadline { return Busy; }
        }
        var mine := existing.(holder := Some(me), acquired := Some(now), renewed := Some(now),
                             seconds := Some(LEASE_SECONDS));
        r := api.Update(mine);
    }
  }

  /** The same verdict and the same lease come out of the protocol's own steps. */
  lemma AcquireIsARun(ids: map<nat, string>, w: World, p: nat, read: ReadResult)
    requires ids.Keys == w.loops.Keys && p in ids && w.loops[p].Began?
    requires read.Found? ==> read.lease in w.past
    ensures var es := AcquireEvents(p, read, read.Found? && Blocks(read.lease, ids[p], w.clock));
            Legal(ids, w, es) &&
            var r := Run(ids, w, es);
            var won := || (read.NotFound? && w.lease.None?)
                       || (read.Found? && !Blocks(read.lease, ids[p], w.clock) &&
                           w.lease.Some? && w.lease.value.version == read.lease.version);
            && r.loops[p] == (if won then Holding(w.loops[p].now) else Idle)
            && r.lease == (if won then Some(Stamped(w.nextVersion, ids[p], w.loops[p].now)) else w.lease)
            && forall q | q in w.loops && q != p :: r.loops[q] == w.loops[q]
  {
    match read {
      case ReadError =>
        RunCons(ids, w, Abort(p), []);
      case NotFound =>
        var w1 := Apply(ids, w, Get(p, None));
        RunCons(ids, w1, Create(p, true), []);
        RunCons(ids, w, Get(p, None), [Create(p, true)] + []);
      case Found(l) =>
        var w1 := Apply(ids, w, Get(p, Some(l)));
        var w2 := Apply(ids, w1, Check(p));
        var rest := if Blocks(l, ids[p], w.clock) then [] else [Update(p, true)] + [];
        if rest != [] { RunCons(ids, w2, Update(p, true), []); }
        RunCons(ids, w1, Check(p), rest);
        RunCons(ids, w, Get(p, Some(l)), [Check(p)] + rest);
    }
  }
}
