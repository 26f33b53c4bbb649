/**
 Shards of a sharded cluster, from rs.initiate to removal
 (internal/controller/mongodbsharded_controller.go: reconcileShardsInit, reconcileAddShards,
 reconcileScaleIn, cleanupShardResources and the reconcile steps around them).

 A reconcile pass reads the resource, works on its own copy of the status flags, and talks to
 mongos and to the API server call by call.  Between any two of its calls the declared count
 may be edited and the balancer may place chunks on shards that are registered and not draining.
 */
module ShardLifecycle {
  /** A unit of user data: a chunk, or a database's unsharded collections. */
  type Chunk = nat

  /** What a pass has read and keeps in memory: Spec.Shards.Count, len(Status.Shards), the flags. */
  datatype Memory = Memory(declared: nat, upto: nat, init: seq<bool>, added: seq<bool>)

  datatype Control =
    | Idle
    | Preparing(m: Memory)
    | Draining(m: Memory, next: nat)
    | Cleaning(m: Memory, next: nat)      // removeShard has just reported "completed" for `next`
    | Adding(m: Memory)
    | Closing(m: Memory)
    | Failed(m: Memory)                   // a call failed; recording the error is next

  datatype State = State(
    count: nat, initialized: seq<bool>, added: seq<bool>, listed: nat,
    registered: set<nat>, draining: set<nat>, home: map<Chunk, nat>,
    intact: set<nat>,                     // shards whose StatefulSet and PVCs all exist
    initiated: set<nat>,                  // shards whose replica set really exists
    removed: set<nat>,                    // shards cleaned up and not initiated again
    ctl: Control)

  /*
   Status writes.  `written`: the write got through.  `whole`: it did so at once, and stored the
   pass's whole copy; otherwise the newest object was fetched over that copy, and only the field
   the write is about was set again.  `persists`: recording an error stored the whole copy.
   */

  /** What becomes of one shard; `lands`: rs.initiate took effect although it was reported to fail. */
  datatype InitOutcome = CheckFailed | AlreadyInitialized | InitiateFailed(lands: bool) | Initiated

  datatype Event =
    // the environment
    | Declare(n: nat)
    | Place(c: Chunk, shard: nat)
    // the controller
    | Start
    | ApplyShard(shard: nat)
    | InitShards(outcomes: seq<InitOutcome>, written: bool, whole: bool)
    | RemoveCall
    | Clean(complete: bool)
    | DrainDone
    | AddShards(accepted: seq<bool>, written: bool, whole: bool)
    | Close(found: nat, written: bool, whole: bool)
    | Abort(persists: bool)               // not ready, a crash, or a failure and its status write

  // ---------------------------------------------------------------- the flag passes

  predicate Flag(flags: seq<bool>, i: nat) {
    i < |flags| && flags[i]
  }

  function Grown(flags: seq<bool>, count: nat): (r: seq<bool>)
    ensures |r| == if |flags| < count then count else |flags|
    ensures forall i: nat :: Flag(r, i) <==> Flag(flags, i)
  {
    if |flags| < count then flags + seq(count - |flags|, _ => false) else flags
  }

  /** reconcileShardsInit on the flags: grow, then flag every declared shard that is or gets initialized. */
  function InitPass(flags: seq<bool>, count: nat, outcomes: seq<InitOutcome>): (r: seq<bool>)
    requires |outcomes| == count
    ensures |r| == |Grown(flags, count)|
    ensures forall i: nat ::
              Flag(r, i) <==> Flag(flags, i) || (i < count && outcomes[i] in {AlreadyInitialized, Initiated})
  {
    var g := Grown(flags, count);
    seq(|g|, i requires 0 <= i < |g| => g[i] || (i < count && outcomes[i] in {AlreadyInitialized, Initiated}))
  }

  /** The shards whose replica set comes into being in the pass: only unflagged ones are touched. */
  function Formed(flags: seq<bool>, count: nat, outcomes: seq<InitOutcome>): set<nat>
    requires |outcomes| == count
  {
    set i: nat | i < count && !Flag(flags, i) && outcomes[i] in {Initiated, InitiateFailed(true)}
  }

  predicate AllFlagged(flags: seq<bool>, count: nat) {
    forall i: nat | i < count :: Flag(flags, i)
  }

  /** reconcileAddShards on the flags, once every declared shard is initialized. */
  function AddPass(flags: seq<bool>, count: nat, outcomes: seq<bool>): (r: seq<bool>)
    requires |outcomes| == count
    ensures |r| == |Grown(flags, count)|
    ensures forall i: nat :: Flag(r, i) <==> Flag(flags, i) || (i < count && outcomes[i])
  {
    var g := Grown(flags, count);
    seq(|g|, i requires 0 <= i < |g| => g[i] || (i < count && outcomes[i]))
  }

  /** The shards for which the pass issues an addShard that succeeds. */
  function NewlyAdded(flags: seq<bool>, count: nat, outcomes: seq<bool>): set<nat>
    requires |outcomes| == count
  {
    set i: nat | i < count && !Flag(flags, i) && outcomes[i]
  }

  /** The two flag resets at the end of cleanupShardResources. */
  function Unflag(flags: seq<bool>, i: nat): (r: seq<bool>)
    ensures |r| == |flags| && forall j: nat :: Flag(r, j) <==> Flag(flags, j) && j != i
  {
    if i < |flags| then flags[i := false] else flags
  }

  // ---------------------------------------------------------------- the steps

  predicate Empty(s: State, shard: nat) {
    forall c | c in s.home :: s.home[c] != shard
  }

  predicate Environment(e: Event) {
    e.Declare? || e.Place?
  }

  predicate Enabled(s: State, e: Event) {
    match e
    case Declare(_) => true
    case Place(_, i) => i in s.registered && i !in s.draining
    case Start => s.ctl.Idle?
    case ApplyShard(i) => s.ctl.Preparing? && i < s.ctl.m.declared
    case InitShards(outcomes, _, _) =>
      // areShardsReady has seen every declared StatefulSet
      && s.ctl.Preparing? && |outcomes| == s.ctl.m.declared
      && (forall i: nat | i < s.ctl.m.declared :: i in s.intact)
      // the check tells the truth about the replica set
      && (forall i: nat | i < s.ctl.m.declared && outcomes[i].AlreadyInitialized? :: i in s.initiated)
    case RemoveCall => s.ctl.Draining? && s.ctl.next < s.ctl.m.upto
    case Clean(_) => s.ctl.Cleaning?
    case DrainDone => s.ctl.Draining? && s.ctl.next >= s.ctl.m.upto
    case AddShards(outcomes, _, _) =>
      // mongos accepts only a replica set it can reach
      && s.ctl.Adding? && |outcomes| == s.ctl.m.declared
      && forall i: nat | i < |outcomes| && outcomes[i] && !Flag(s.ctl.m.added, i) ::
           i in s.intact && i in s.initiated
    case Close(found, _, _) => s.ctl.Closing? && found <= s.ctl.m.declared
    case Abort(_) => !s.ctl.Idle?
  }

  /** removeShard as mongos answers it: unknown, started, ongoing, or completed and unregistered. */
  function RemoveShard(s: State): State
    requires s.ctl.Draining?
  {
    var i := s.ctl.next;
    if i !in s.registered then s.(ctl := Failed(s.ctl.m))
    else if i !in s.draining then s.(draining := s.draining + {i}, ctl := Idle)
    else if !Empty(s, i) then s.(ctl := Idle)
    else s.(registered := s.registered - {i}, draining := s.draining - {i}, ctl := Cleaning(s.ctl.m, i))
  }

  function CleanUp(s: State, complete: bool): State
    requires s.ctl.Cleaning?
  {
    var i, m := s.ctl.next, s.ctl.m;
    var m' := m.(init := Unflag(m.init, i), added := Unflag(m.added, i));
    s.(intact := s.intact - {i}, initiated := s.initiated - {i}, removed := s.removed + {i},
       ctl := if complete then Draining(m', i + 1) else Failed(m))
  }

  /** The pass's copy after a write that had to fetch the newest object first. */
  function Refetched(s: State, m: Memory, whole: bool): Memory {
    if whole then m else Memory(s.count, s.listed, s.initialized, s.added)
  }

  function InitAll(s: State, outcomes: seq<InitOutcome>, written: bool, whole: bool): State
    requires s.ctl.Preparing? && |outcomes| == s.ctl.m.declared
  {
    var m := s.ctl.m.(init := InitPass(s.ctl.m.init, s.ctl.m.declared, outcomes));
    var formed := Formed(s.ctl.m.init, s.ctl.m.declared, outcomes);
    var s0 := s.(initiated := s.initiated + formed, removed := s.removed - formed);
    if !written then s0.(ctl := Failed(m))
    else
      var s1 := s0.(initialized := m.init, added := if whole then m.added else s.added);
      var m1 := Refetched(s1, m, whole);
      s1.(ctl := if AllFlagged(m.init, m.declared) then Draining(m1, m1.declared) else Failed(m1))
  }

  function AddAll(s: State, outcomes: seq<bool>, written: bool, whole: bool): State
    requires s.ctl.Adding? && |outcomes| == s.ctl.m.declared
  {
    var m := s.ctl.m;
    if !AllFlagged(m.init, m.declared) then s.(ctl := Closing(m.(added := Grown(m.added, m.declared))))
    else
      var m1 := m.(added := AddPass(m.added, m.declared, outcomes));
      var s1 := s.(registered := s.registered + NewlyAdded(m.added, m.declared, outcomes));
      if !written then s1.(ctl := Failed(m1))
      else
        var s2 := s1.(added := m1.added, initialized := if whole then m.init else s1.initialized);
        var m2 := Refetched(s2, m1, whole);
        s2.(ctl := if AllFlagged(m1.added, m.declared) then Closing(m2) else Failed(m2))
  }

  function Save(s: State, m: Memory): State {
    s.(initialized := m.init, added := m.added)
  }

  function Apply(s: State, e: Event): State
    requires Enabled(s, e)
  {
    match e
    case Declare(n) => s.(count := n)
    case Place(c, i) => s.(home := s.home[c := i])
    case Start => s.(ctl := Preparing(Memory(s.count, s.listed, s.initialized, s.added)))
    case ApplyShard(i) => s.(intact := s.intact + {i})
    case InitShards(outcomes, written, whole) => InitAll(s, outcomes, written, whole)
    case RemoveCall => RemoveShard(s)
    case Clean(complete) => CleanUp(s, complete)
    case DrainDone => s.(ctl := Adding(s.ctl.m))
    case AddShards(outcomes, written, whole) => AddAll(s, outcomes, written, whole)
    case Close(found, written, whole) =>
      (if written && whole then Save(s, s.ctl.m).(listed := found) else s).(ctl := Idle)
    case Abort(persists) =>
      (if persists then Save(s, s.ctl.m) else s).(ctl := Idle)
  }

  predicate Legal(s: State, es: seq<Event>)
    decreases |es|
  {
    es == [] || (Enabled(s, es[0]) && Legal(Apply(s, es[0]), es[1..]))
  }

  function Run(s: State, es: seq<Event>): State
    requires Legal(s, es)
    decreases |es|
  {
    if es == [] then s else Run(Apply(s, es[0]), es[1..])
  }

  // ---------------------------------------------------------------- conservation

  ghost predicate FlagsOk(init: seq<bool>, added: seq<bool>) {
    forall i: nat | Flag(added, i) :: Flag(init, i)
  }

  ghost predicate Within(init: seq<bool>, saved: seq<bool>) {
    forall i: nat | Flag(init, i) :: Flag(saved, i)
  }

  ghost predicate DataOk(s: State) {
    && (forall c | c in s.home :: s.home[c] in s.registered)
    && s.draining <= s.registered <= s.intact && s.registered <= s.initiated
  }

  ghost predicate ControlOk(s: State) {
    !s.ctl.Idle? ==>
      var m := s.ctl.m;
      && FlagsOk(m.init, m.added)
      && (!s.ctl.Preparing? && !s.ctl.Failed? ==> Within(m.init, s.initialized))
      && (s.ctl.Preparing? ==> m.init == s.initialized && m.added == s.added)
      && (s.ctl.Draining? ==> m.declared <= s.ctl.next)
      && (s.ctl.Cleaning? ==> m.declared <= s.ctl.next && s.ctl.next !in s.registered)
  }

  /** A flagged shard has a replica set, unless it was removed. */
  ghost predicate Backed(s: State, init: seq<bool>) {
    forall i: nat | Flag(init, i) :: i in s.initiated || i in s.removed
  }

  ghost predicate ReplicasOk(s: State) {
    && s.initiated !! s.removed && Backed(s, s.initialized)
    && (!s.ctl.Idle? ==> Backed(s, s.ctl.m.init))
  }

  ghost predicate Inv(s: State) {
    DataOk(s) && FlagsOk(s.initialized, s.added) && ControlOk(s) && ReplicasOk(s)
  }

  /** What no step may do to the data: lose a chunk, or move one other than by the balancer. */
  ghost predicate Conserves(s: State, e: Event, s': State) {
    && s.home.Keys <= s'.home.Keys
    && (!e.Place? ==> s'.home == s.home)
    && (forall c | c in s'.home :: s'.home[c] in s'.intact)
  }

  lemma StepKeepsData(s: State, e: Event)
    requires Inv(s) && Enabled(s, e)
    ensures DataOk(Apply(s, e)) && Conserves(s, e, Apply(s, e))
  {
  }

  lemma StepKeepsFlags(s: State, e: Event)
    requires Inv(s) && Enabled(s, e)
    ensures FlagsOk(Apply(s, e).initialized, Apply(s, e).added)
  {
  }

  lemma InitKeepsControl(s: State, e: Event)
    requires Inv(s) && Enabled(s, e) && e.InitShards?
    ensures ControlOk(Apply(s, e))
  {
  }

  lemma AddKeepsControl(s: State, e: Event)
    requires Inv(s) && Enabled(s, e) && e.AddShards?
    ensures ControlOk(Apply(s, e))
  {
  }

  lemma StepKeepsControl(s: State, e: Event)
    requires Inv(s) && Enabled(s, e)
    ensures ControlOk(Apply(s, e))
  {
    if e.InitShards? {
      InitKeepsControl(s, e);
    } else if e.AddShards? {
      AddKeepsControl(s, e);
    }
  }

  lemma InitKeepsReplicas(s: State, e: Event)
    requires Inv(s) && Enabled(s, e) && e.InitShards?
    ensures ReplicasOk(Apply(s, e))
  {
  }

  lemma AddKeepsReplicas(s: State, e: Event)
    requires Inv(s) && Enabled(s, e) && e.AddShards?
    ensures ReplicasOk(Apply(s, e))
  {
  }

  lemma StepKeepsReplicas(s: State, e: Event)
    requires Inv(s) && Enabled(s, e)
    ensures ReplicasOk(Apply(s, e))
  {
    if e.InitShards? {
      InitKeepsReplicas(s, e);
    } else if e.AddShards? {
      AddKeepsReplicas(s, e);
    }
  }

  lemma StepKeepsInv(s: State, e: Event)
    requires Inv(s) && Enabled(s, e)
    ensures Inv(Apply(s, e)) && Conserves(s, e, Apply(s, e))
  {
    StepKeepsReplicas(s, e);
    StepKeepsData(s, e);
    StepKeepsFlags(s, e);
    StepKeepsControl(s, e);
  }

  /**
   Scaling out and in conserves every chunk: whatever counts are declared, whichever calls
   fail, and wherever the balancer places chunks in between, every chunk ever placed sits on a
   registered shard whose StatefulSet and volumes exist.
   */
  lemma {:induction false} ScalingConservesChunks(s: State, es: seq<Event>)
    requires Inv(s) && Legal(s, es)
    ensures var r := Run(s, es);
            && Inv(r) && s.home.Keys <= r.home.Keys
            && forall c | c in r.home :: r.home[c] in r.registered && r.home[c] in r.intact
    decreases |es|
  {
    if es != [] {
      StepKeepsInv(s, es[0]);
      ScalingConservesChunks(Apply(s, es[0]), es[1..]);
    }
  }

  /** Volumes go only in a cleanup: of an undeclared, unregistered shard without a single chunk. */
  lemma VolumesGoOnlyAfterDrain(s: State, e: Event, i: nat)
    requires Inv(s) && Enabled(s, e) && i in s.intact && i !in Apply(s, e).intact
    ensures e.Clean? && s.ctl.Cleaning? && s.ctl.next == i && i >= s.ctl.m.declared
    ensures i !in s.registered && Empty(s, i)
  {
  }

  lemma {:induction false} LegalTake(s: State, es: seq<Event>, k: nat)
    requires Legal(s, es) && k < |es|
    ensures Legal(s, es[..k]) && Enabled(Run(s, es[..k]), es[k])
    ensures Legal(s, es[..k + 1]) && Run(s, es[..k + 1]) == Apply(Run(s, es[..k]), es[k])
    decreases |es|
  {
    if k == 0 {
      assert es[..1][1..] == [];
    } else {
      LegalTake(Apply(s, es[0]), es[1..], k - 1);
      assert es[..k][1..] == es[1..][..k - 1];
      assert es[..k + 1][1..] == es[1..][..k];
    }
  }

  /**
   In any run, a cleanup comes right after the removeShard call that reported completion:
   nothing but edits and chunk placements can lie between the two.
   */
  lemma {:induction false} CleaningWasEntered(s: State, es: seq<Event>, k: nat) returns (j: nat)
    requires Legal(s, es) && !s.ctl.Cleaning? && k < |es| && es[k].Clean?
    ensures j < k && es[j].RemoveCall? && forall m | j < m < k :: Environment(es[m])
    decreases k
  {
    LegalTake(s, es, k);
    assert es[..0] == [];
    j := k;
    while j > 0 && Environment(es[j - 1])
      invariant j <= k && forall m | j <= m < k :: Environment(es[m])
      invariant Legal(s, es[..j]) && Run(s, es[..j]).ctl.Cleaning?
    {
      LegalTake(s, es, j - 1);
      j := j - 1;
    }
    LegalTake(s, es, j - 1);
    j := j - 1;
  }

  // ---------------------------------------------------------------- the flags

  /** addShard is issued only with every declared shard flagged as initialized, in memory and on record. */
  lemma AddOnlyWhenAllInitialized(s: State, e: Event, i: nat)
    requires Inv(s) && Enabled(s, e) && i !in s.registered && i in Apply(s, e).registered
    ensures e.AddShards? && s.ctl.Adding? && i < s.ctl.m.declared && i in s.initiated && i in s.intact
    ensures AllFlagged(s.ctl.m.init, s.ctl.m.declared) && AllFlagged(s.initialized, s.ctl.m.declared)
  {
  }

  /** In every reachable state an added shard is an initialized one. */
  lemma AddedMeansInitialized(s: State, es: seq<Event>, i: nat)
    requires Inv(s) && Legal(s, es) && Flag(Run(s, es).added, i)
    ensures Flag(Run(s, es).initialized, i)
  {
    ScalingConservesChunks(s, es);
  }

  /**
   In every reachable state a shard flagged as initialized, on record or in the pass's copy,
   lacks its replica set exactly when it was removed and has not been initiated again.
   */
  lemma FlaggedIsInitiatedUnlessRemoved(s: State, es: seq<Event>, i: nat)
    requires Inv(s) && Legal(s, es)
    ensures var r := Run(s, es);
            Flag(r.initialized, i) || (!r.ctl.Idle? && Flag(r.ctl.m.init, i)) ==>
              (i in r.initiated <==> i !in r.removed)
  {
    ScalingConservesChunks(s, es);
  }

  lemma {:induction false} OnlyCleaningRemoves(s: State, es: seq<Event>)
    requires Legal(s, es) && forall k | 0 <= k < |es| :: !es[k].Clean?
    ensures Run(s, es).removed <= s.removed
    decreases |es|
  {
    if es != [] { OnlyCleaningRemoves(Apply(s, es[0]), es[1..]); }
  }

  /** As long as nothing is cleaned up, every flagged shard has its replica set. */
  lemma FlaggedIsInitiated(s: State, es: seq<Event>, i: nat)
    requires Inv(s) && s.removed == {} && Legal(s, es) && forall k | 0 <= k < |es| :: !es[k].Clean?
    requires Flag(Run(s, es).initialized, i)
    ensures i in Run(s, es).initiated
  {
    FlaggedIsInitiatedUnlessRemoved(s, es, i);
    OnlyCleaningRemoves(s, es);
  }

  /** Shard `i` was removed but is still flagged as initialized, on record and in the pass's copy. */
  ghost predicate Hollow(s: State, i: nat) {
    && i in s.removed && i !in s.initiated && i !in s.registered && Flag(s.initialized, i)
    && (!s.ctl.Idle? ==> Flag(s.ctl.m.init, i) && !(s.ctl.Cleaning? && s.ctl.next == i))
  }

  /** Such a shard never gets a replica set again, and so never comes back into the cluster. */
  lemma {:induction false} HollowStaysOut(s: State, es: seq<Event>, i: nat)
    requires Legal(s, es) && Hollow(s, i)
    ensures Hollow(Run(s, es), i)
    decreases |es|
  {
    if es != [] {
      assert Hollow(Apply(s, es[0]), i);
      HollowStaysOut(Apply(s, es[0]), es[1..], i);
    }
  }

  /** Shard `i` is recorded as added although mongos no longer knows it. */
  ghost predicate Orphan(s: State, i: nat) {
    && i !in s.registered && Flag(s.added, i)
    && (!s.ctl.Idle? ==> Flag(s.ctl.m.added, i) && !(s.ctl.Cleaning? && s.ctl.next == i))
  }

  /**
   The flag resets live in memory until a later write.  When the next shard is still draining
   the pass returns before any, and the shard just removed stays recorded as added.
   */
  lemma PartialDrainOrphans(s: State)
    requires Inv(s) && s.ctl.Cleaning? && s.ctl.next + 1 < s.ctl.m.upto && Flag(s.added, s.ctl.next)
    requires s.ctl.next + 1 in s.draining && !Empty(s, s.ctl.next + 1)
    ensures Legal(s, [Clean(true), RemoveCall]) && Orphan(Run(s, [Clean(true), RemoveCall]), s.ctl.next)
  {
    var s1 := Apply(s, Clean(true));
    assert [Clean(true), RemoveCall][1..] == [RemoveCall] && [RemoveCall][1..] == [];
    assert Legal(Apply(s1, RemoveCall), []) && Legal(s1, [RemoveCall]);
    assert Run(s1, [RemoveCall]) == Apply(s1, RemoveCall);
  }

  /** Surplus shard `i` is gone from mongos, still listed in the status, and lies ahead of the pass. */
  ghost predicate Stuck(s: State, i: nat) {
    && s.count <= i < s.listed && i !in s.registered
    && match s.ctl
       case Idle => true
       case Preparing(m) => m.declared == s.count && m.upto == s.listed
       case Draining(m, next) => m.declared == s.count && m.upto == s.listed && next <= i
       case Cleaning(m, next) => m.declared == s.count && m.upto == s.listed && next < i
       case Failed(_) => true
       case _ => false
  }

  lemma StuckStep(s: State, e: Event, i: nat)
    requires Stuck(s, i) && Enabled(s, e) && !e.Declare?
    ensures var s' := Apply(s, e);
            Stuck(s', i) && s'.count == s.count && s'.listed == s.listed && s'.registered <= s.registered
  {
  }

  /**
   From then on scale-in never finishes: as long as the count stays declared, every pass fails
   at that shard at the latest, the status keeps listing it, and no shard is ever added.
   */
  lemma {:induction false} StuckForGood(s: State, es: seq<Event>, i: nat)
    requires Stuck(s, i) && Legal(s, es) && forall k | 0 <= k < |es| :: !es[k].Declare?
    ensures var r := Run(s, es); Stuck(r, i) && r.listed == s.listed && r.registered <= s.registered
    decreases |es|
  {
    if es != [] {
      StuckStep(s, es[0], i);
      StuckForGood(Apply(s, es[0]), es[1..], i);
    }
  }

  /** A scale-in by two or more gets there when one surplus shard is done before the next. */
  lemma PartialDrainSticks(s: State)
    requires Inv(s) && s.ctl.Cleaning? && s.ctl.m.declared == s.count && s.ctl.m.upto == s.listed
    requires s.ctl.next + 1 < s.listed && !Drained(s, s.ctl.next + 1)
    ensures Legal(s, [Clean(true), RemoveCall]) && Stuck(Run(s, [Clean(true), RemoveCall]), s.ctl.next)
  {
    var s1 := Apply(s, Clean(true));
    assert [Clean(true), RemoveCall][1..] == [RemoveCall] && [RemoveCall][1..] == [];
    assert Legal(Apply(s1, RemoveCall), []) && Legal(s1, [RemoveCall]);
    assert Run(s1, [RemoveCall]) == Apply(s1, RemoveCall);
  }

  /** So does any scale-in whose pass breaks off between a removal and the closing status update. */
  lemma BrokenOffSticks(s: State, persists: bool)
    requires Inv(s) && s.ctl.Cleaning? && s.count <= s.ctl.next < s.listed
    ensures Enabled(s, Abort(persists)) && Stuck(Apply(s, Abort(persists)), s.ctl.next)
  {
  }

  /** The step puts the pass's copy of the added flags on record. */
  predicate WritesAdded(s: State, e: Event) {
    || (e.AddShards? && s.ctl.Adding? && e.written && AllFlagged(s.ctl.m.init, s.ctl.m.declared))
    || (e.Close? && e.written && e.whole)
    || (e.Abort? && e.persists)
  }

  predicate EverWritesAdded(s: State, es: seq<Event>)
    requires Legal(s, es)
    decreases |es|
  {
    es != [] && (WritesAdded(s, es[0]) || EverWritesAdded(Apply(s, es[0]), es[1..]))
  }

  /** The pass, if it is still going, has shard `i` unflagged and undeclared. */
  ghost predicate Reset(s: State, i: nat) {
    !s.ctl.Idle? ==>
      !s.ctl.Preparing? && !Flag(s.ctl.m.added, i) && (s.ctl.Closing? || s.ctl.Failed? || s.ctl.m.declared <= i)
  }

  lemma ResetStep(s: State, e: Event, i: nat)
    requires Enabled(s, e) && !e.Start? && Reset(s, i)
    ensures Reset(Apply(s, e), i)
    ensures Flag(Apply(s, e).added, i) <==> Flag(s.added, i) && !WritesAdded(s, e)
  {
  }

  lemma {:induction false} ResetRun(s: State, es: seq<Event>, i: nat)
    requires Legal(s, es) && Reset(s, i) && forall k | 0 <= k < |es| :: !es[k].Start?
    ensures Flag(Run(s, es).added, i) <==> Flag(s.added, i) && !EverWritesAdded(s, es)
    decreases |es|
  {
    if es != [] {
      ResetStep(s, es[0], i);
      ResetRun(Apply(s, es[0]), es[1..], i);
    }
  }

  /**
   Whatever else happens before the next pass, a removed shard stays recorded as added exactly
   when the pass that removed it ends without writing the added flags.
   */
  lemma RemovalForgottenIff(s: State, es: seq<Event>)
    requires Inv(s) && s.ctl.Cleaning? && Flag(s.added, s.ctl.next)
    requires Legal(CleanUp(s, true), es) && forall k | 0 <= k < |es| :: !es[k].Start?
    ensures Flag(Run(CleanUp(s, true), es).added, s.ctl.next) <==> !EverWritesAdded(CleanUp(s, true), es)
  {
    assert Reset(CleanUp(s, true), s.ctl.next);
    ResetRun(CleanUp(s, true), es, s.ctl.next);
  }

  /** Declaring such a shard again does not bring it back: no later pass issues its addShard. */
  lemma {:induction false} OrphanStaysOut(s: State, es: seq<Event>, i: nat)
    requires Legal(s, es) && Orphan(s, i)
    ensures Orphan(Run(s, es), i)
    decreases |es|
  {
    if es != [] {
      assert Orphan(Apply(s, es[0]), i);
      OrphanStaysOut(Apply(s, es[0]), es[1..], i);
    }
  }

  // ---------------------------------------------------------------- an undisturbed drain

  /** removeShard would answer "completed": the shard has been told to drain and holds nothing. */
  predicate Drained(s: State, i: nat) {
    i in s.registered && i in s.draining && Empty(s, i)
  }

  /** reconcileScaleIn from start to end, when nobody else acts meanwhile. */
  function Drain(s: State, cleanups: seq<bool>): State
    requires s.ctl.Draining? && |cleanups| == s.ctl.m.upto
    decreases s.ctl.m.upto - s.ctl.next
  {
    var i := s.ctl.next;
    if i >= s.ctl.m.upto then s.(ctl := Adding(s.ctl.m))
    else
      var s1 := RemoveShard(s);
      if !s1.ctl.Cleaning? then s1
      else
        var s2 := CleanUp(s1, cleanups[i]);
        if s2.ctl.Draining? then Drain(s2, cleanups) else s2
  }

  /** The first surplus shard from `i` on that is not drained or whose cleanup fails. */
  function Stop(s: State, cleanups: seq<bool>, i: nat): nat
    decreases |cleanups| - i
  {
    if i >= |cleanups| || !Drained(s, i) || !cleanups[i] then i else Stop(s, cleanups, i + 1)
  }

  lemma {:induction false} StopIsFirst(s: State, cleanups: seq<bool>, i: nat)
    requires i <= |cleanups|
    ensures i <= Stop(s, cleanups, i) <= |cleanups|
    ensures forall j | i <= j < Stop(s, cleanups, i) :: Drained(s, j) && cleanups[j]
    ensures Stop(s, cleanups, i) < |cleanups| ==>
              !Drained(s, Stop(s, cleanups, i)) || !cleanups[Stop(s, cleanups, i)]
    decreases |cleanups| - i
  {
    if i < |cleanups| && Drained(s, i) && cleanups[i] { StopIsFirst(s, cleanups, i + 1); }
  }

  /** Removing one shard does not change whether the later ones are drained. */
  lemma {:induction false} StopElsewhere(s: State, s2: State, cleanups: seq<bool>, i: nat)
    requires forall j: nat | j >= i :: Drained(s2, j) <==> Drained(s, j)
    ensures Stop(s2, cleanups, i) == Stop(s, cleanups, i)
    decreases |cleanups| - i
  {
    if i < |cleanups| && Drained(s, i) && cleanups[i] { StopElsewhere(s, s2, cleanups, i + 1); }
  }

  /** Where an undisturbed drain stops, how, and what its copy of the flags then says. */
  ghost predicate StoppedAt(s: State, r: State, k: nat)
    requires s.ctl.Draining?
  {
    && r.added == s.added && r.initialized == s.initialized
    && (k >= s.ctl.m.upto ==> r.ctl.Adding?)
    && (k < s.ctl.m.upto && k in s.registered && !Drained(s, k) ==> r.ctl.Idle?)
    && (k < s.ctl.m.upto && (k !in s.registered || Drained(s, k)) ==> r.ctl.Failed?)
    && (!r.ctl.Idle? ==>
          && r.ctl.m.declared == s.ctl.m.declared && r.ctl.m.upto == s.ctl.m.upto
          && (forall j: nat :: Flag(r.ctl.m.added, j) <==> Flag(s.ctl.m.added, j) && !(s.ctl.next <= j < k))
          && (forall j: nat :: Flag(r.ctl.m.init, j) <==> Flag(s.ctl.m.init, j) && !(s.ctl.next <= j < k)))
  }

  /** Where the rest of the drain stops is where the whole drain stops. */
  lemma OneMoreRemoved(s: State, r: State, k: nat)
    requires s.ctl.Draining? && Drained(s, s.ctl.next) && s.ctl.next < k
    requires StoppedAt(CleanUp(RemoveShard(s), true), r, k)
    ensures StoppedAt(s, r, k)
  {
    var s2 := CleanUp(RemoveShard(s), true);
    assert k in s2.registered <==> k in s.registered;
    assert Drained(s2, k) <==> Drained(s, k);
  }

  lemma {:induction false} DrainStops(s: State, cleanups: seq<bool>)
    requires s.ctl.Draining? && |cleanups| == s.ctl.m.upto
    ensures StoppedAt(s, Drain(s, cleanups), Stop(s, cleanups, s.ctl.next))
    decreases s.ctl.m.upto - s.ctl.next
  {
    var i := s.ctl.next;
    if i < s.ctl.m.upto && Drained(s, i) && cleanups[i] {
      var s2 := CleanUp(RemoveShard(s), true);
      DrainStops(s2, cleanups);
      StopElsewhere(s, s2, cleanups, i + 1);
      StopIsFirst(s, cleanups, i + 1);
      OneMoreRemoved(s, Drain(s2, cleanups), Stop(s, cleanups, i + 1));
    }
  }

  lemma DrainFinishesIff(s: State, cleanups: seq<bool>)
    requires s.ctl.Draining? && |cleanups| == s.ctl.m.upto
    ensures Drain(s, cleanups).ctl.Adding? <==>
            forall i | s.ctl.next <= i < s.ctl.m.upto :: Drained(s, i) && cleanups[i]
  {
    DrainStops(s, cleanups);
    if s.ctl.next <= s.ctl.m.upto { StopIsFirst(s, cleanups, s.ctl.next); }
  }

  /** The rest of the pass: addShard and its status write, and recording the error if one comes up. */
  function FinishDrain(s: State, outcomes: seq<bool>, written: bool, whole: bool, persists: bool): State
    requires s.ctl.Adding? ==> Enabled(s, AddShards(outcomes, written, whole))
  {
    var s1 := if s.ctl.Adding? then Apply(s, AddShards(outcomes, written, whole)) else s;
    if s1.ctl.Failed? then Apply(s1, Abort(persists)) else s1
  }

  /** Which writes clear the record of a shard whose flag the pass has already reset. */
  lemma FinishForgets(r: State, outcomes: seq<bool>, written: bool, whole: bool, persists: bool, j: nat)
    requires r.ctl.Idle? || r.ctl.Failed? || r.ctl.Adding?
    requires !r.ctl.Idle? ==> !Flag(r.ctl.m.added, j) && r.ctl.m.declared <= j
    requires r.ctl.Adding? ==>
               Enabled(r, AddShards(outcomes, written, whole)) && AllFlagged(r.ctl.m.init, r.ctl.m.declared)
    ensures Flag(FinishDrain(r, outcomes, written, whole, persists).added, j) <==>
            Flag(r.added, j) && (r.ctl.Idle? || (!persists && (r.ctl.Failed? || !written)))
  {
  }

  /**
   The shards an undisturbed drain removes stay recorded as added exactly when the next one it
   comes to is registered but not drained yet, or when no status write of the pass gets through:
   neither that of addShard, if the drain gets that far, nor that of an error.
   */
  lemma DrainForgetsIff(s: State, cleanups: seq<bool>, outcomes: seq<bool>, written: bool, whole: bool, persists: bool,
                        j: nat)
    requires Inv(s) && s.ctl.Draining? && |cleanups| == s.ctl.m.upto && s.ctl.next == s.ctl.m.declared <= s.ctl.m.upto
    requires AllFlagged(s.ctl.m.init, s.ctl.m.declared)
    requires Drain(s, cleanups).ctl.Adding? ==> Enabled(Drain(s, cleanups), AddShards(outcomes, written, whole))
    requires s.ctl.m.declared <= j < Stop(s, cleanups, s.ctl.m.declared) && Flag(s.added, j)
    ensures var k := Stop(s, cleanups, s.ctl.m.declared);
            var waits := k < s.ctl.m.upto && k in s.registered && !Drained(s, k);
            Flag(FinishDrain(Drain(s, cleanups), outcomes, written, whole, persists).added, j) <==>
            waits || (!persists && (k < s.ctl.m.upto || !written))
  {
    DrainStops(s, cleanups);
    StopIsFirst(s, cleanups, s.ctl.m.declared);
    var r := Drain(s, cleanups);
    assert !r.ctl.Idle? ==> !Flag(r.ctl.m.added, j) && AllFlagged(r.ctl.m.init, r.ctl.m.declared);
    FinishForgets(r, outcomes, written, whole, persists, j);
  }

  // ---------------------------------------------------------------- the loops

  lemma {:induction false} RunSnoc(s: State, es: seq<Event>, e: Event)
    requires Legal(s, es) && Enabled(Run(s, es), e)
    ensures Legal(s, es + [e]) && Run(s, es + [e]) == Apply(Run(s, es), e)
    decreases |es|
  {
    if es == [] {
      assert [e][1..] == [] && es + [e] == [e];
    } else {
      assert (es + [e])[0] == es[0] && (es + [e])[1..] == es[1..] + [e];
      RunSnoc(Apply(s, es[0]), es[1..], e);
    }
  }

  lemma FormedNext(flags: seq<bool>, outcomes: seq<InitOutcome>, i: nat)
    requires i < |outcomes|
    ensures Formed(flags, i + 1, outcomes[..i + 1]) ==
            Formed(flags, i, outcomes[..i])
            + (if !Flag(flags, i) && outcomes[i] in {Initiated, InitiateFailed(true)} then {i} else {})
  {
  }

  datatype ScaleIn = Finished | Waiting | Erred

  function AfterRemove(r: DrainState, m: Memory, i: nat): Control {
    match r
    case Done => Cleaning(m, i)
    case Unknown => Failed(m)
    case _ => Idle
  }

  function AfterScaleIn(r: ScaleIn, m: Memory): Control {
    match r
    case Finished => Adding(m)
    case Waiting => Idle
    case Erred => Failed(m)
  }

  datatype DrainState = Unknown | Started | Ongoing | Done

  /** One pass: the server's state, the resource as saved, and the pass's own copy of the flags. */
  class ReconcilePass {
    const count: nat
    const savedInit: seq<bool>
    const savedAdded: seq<bool>
    const listed: nat
    const declared: nat
    const upto: nat
    var init: seq<bool>
    var added: seq<bool>
    var registered: set<nat>
    var draining: set<nat>
    var home: map<Chunk, nat>
    var intact: set<nat>
    var initiated: set<nat>
    var removed: set<nat>

    constructor (s: State)
      requires s.ctl.Idle?
      ensures declared == s.count && AsState(Preparing(Mem())) == Apply(s, Start)
    {
      count, savedInit, savedAdded, listed := s.count, s.initialized, s.added, s.listed;
      declared, upto, init, added := s.count, s.listed, s.initialized, s.added;
      registered, draining, home, intact := s.registered, s.draining, s.home, s.intact;
      initiated, removed := s.initiated, s.removed;
    }

    function Mem(): Memory
      reads this
    {
      Memory(declared, upto, init, added)
    }

    function AsState(ctl: Control): State
      reads this
    {
      State(count, savedInit, savedAdded, listed, registered, draining, home, intact, initiated, removed, ctl)
    }

    /**
     The init loop: partial failures are collected, the other shards still make progress.  A flag
     is set exactly where the replica set turns out to exist or is initiated, and an error is
     returned for exactly the shards where neither could be had.
     */
    method ReconcileShardsInit(outcomes: seq<InitOutcome>) returns (errs: seq<nat>)
      requires |outcomes| == declared
      modifies this`init, this`initiated, this`removed
      ensures init == InitPass(old(init), declared, outcomes)
      ensures initiated == old(initiated) + Formed(old(init), declared, outcomes)
      ensures removed == old(removed) - Formed(old(init), declared, outcomes)
      ensures forall i: nat :: Flag(init, i) && !Flag(old(init), i) <==>
                i < declared && !Flag(old(init), i) && (outcomes[i] == AlreadyInitialized || outcomes[i] == Initiated)
      ensures forall i: nat :: i in errs <==>
                i < declared && !Flag(old(init), i) && (outcomes[i] == CheckFailed || outcomes[i].InitiateFailed?)
      ensures errs == [] <==> AllFlagged(init, declared)
    {
      errs := [];
      if |init| < declared {
        init := Grown(init, declared);
      }
      for i := 0 to declared
        invariant |init| == |Grown(old(init), declared)|
        invariant forall j | 0 <= j < |init| ::
                    init[j] == (|| Grown(old(init), declared)[j]
                                || (j < i && outcomes[j] in {AlreadyInitialized, Initiated}))
        invariant forall j: nat :: j in errs <==> j < i && !Flag(init, j)
        invariant var formed := Formed(old(init), i, outcomes[..i]);
                  initiated == old(initiated) + formed && removed == old(removed) - formed
      {
        FormedNext(old(init), outcomes, i);
        assert Flag(Grown(old(init), declared), i) <==> Flag(old(init), i);
        if init[i] { continue; }
        match outcomes[i] {
          case CheckFailed =>
            errs := errs + [i];
          case AlreadyInitialized =>
            init := init[i := true];
          case InitiateFailed(lands) =>
            if lands { initiated, removed := initiated + {i}, removed - {i}; }
            errs := errs + [i];
          case Initiated =>
            initiated, removed := initiated + {i}, removed - {i};
            init := init[i := true];
        }
      }
      assert outcomes[..declared] == outcomes;
      assert init == InitPass(old(init), declared, outcomes);
      if errs != [] {
        assert errs[0] in errs;
      }
    }

    /** The add loop: nothing is sent before every declared shard is initialized. */
    method ReconcileAddShards(accepted: seq<bool>) returns (errs: seq<nat>)
      requires |accepted| == declared
      modifies this`added, this`registered
      ensures !AllFlagged(init, declared) ==>
                errs == [] && registered == old(registered) && added == Grown(old(added), declared)
      ensures AllFlagged(init, declared) ==>
                && added == AddPass(old(added), declared, accepted)
                && registered == old(registered) + NewlyAdded(old(added), declared, accepted)
                && forall i: nat :: i in errs <==> i < declared && !Flag(added, i)
    {
      errs := [];
      if |added| < declared {
        added := Grown(added, declared);
      }
      for i := 0 to declared
        invariant forall j: nat | j < i :: Flag(init, j)
      {
        if i >= |init| || !init[i] {
          assert !Flag(init, i);
          return;
        }
      }
      for i := 0 to declared
        invariant |added| == |Grown(old(added), declared)|
        invariant forall j | 0 <= j < |added| :: added[j] == (Grown(old(added), declared)[j] || (j < i && accepted[j]))
        invariant registered == old(registered) + (set j: nat | j < i && !Flag(old(added), j) && accepted[j])
        invariant forall j: nat :: j in errs <==> j < i && !Flag(added, j)
      {
        if added[i] {
          assert Flag(old(added), i);
        } else if !accepted[i] {
          errs := errs + [i];
        } else {
          registered := registered + {i};
          added := added[i := true];
        }
      }
      assert added == AddPass(old(added), declared, accepted);
    }

    /** removeShard at mongos. */
    method RemoveShardWithStatus(i: nat) returns (r: DrainState)
      modifies this`registered, this`draining
      ensures AsState(AfterRemove(r, Mem(), i)) == RemoveShard(old(AsState(Draining(Mem(), i))))
      ensures Mem() == old(Mem())
    {
      if i !in registered { return Unknown; }
      if i !in draining {
        draining := draining + {i};
        return Started;
      }
      if exists c | c in home :: home[c] == i { return Ongoing; }
      registered, draining := registered - {i}, draining - {i};
      return Done;
    }

    method CleanupShardResources(i: nat, complete: bool)
      modifies this`intact, this`initiated, this`removed, this`init, this`added
      ensures complete ==> AsState(Draining(Mem(), i + 1)) == CleanUp(old(AsState(Cleaning(Mem(), i))), true)
      ensures !complete ==> AsState(Failed(Mem())) == CleanUp(old(AsState(Cleaning(Mem(), i))), false)
    {
      intact, initiated, removed := intact - {i}, initiated - {i}, removed + {i};
      if complete {
        added := Unflag(added, i);
        init := Unflag(init, i);
      }
    }

    /**
     The scale-in loop is a run of the protocol: one removeShard per surplus shard, in order,
     each completed one followed at once by its cleanup, stopping at the first that is not done.
     It finishes exactly when every surplus shard was drained and empty and its cleanup succeeds.
     */
    method ReconcileScaleIn(cleanups: seq<bool>) returns (r: ScaleIn, ghost trace: seq<Event>)
      requires |cleanups| == upto
      modifies this
      ensures Legal(old(AsState(Draining(Mem(), declared))), trace)
      ensures Run(old(AsState(Draining(Mem(), declared))), trace) == AsState(AfterScaleIn(r, Mem()))
      ensures AsState(AfterScaleIn(r, Mem())) == Drain(old(AsState(Draining(Mem(), declared))), cleanups)
      ensures r == Finished <==>
              forall i | declared <= i < upto :: Drained(old(AsState(Draining(Mem(), declared))), i) && cleanups[i]
    {
      ghost var s0 := AsState(Draining(Mem(), declared));
      DrainFinishesIff(s0, cleanups);
      trace := [];
      var i := declared;
      while i < upto
        invariant declared <= i
        invariant Legal(s0, trace) && Run(s0, trace) == AsState(Draining(Mem(), i))
        invariant Drain(s0, cleanups) == Drain(AsState(Draining(Mem(), i)), cleanups)
      {
        var d := RemoveShardWithStatus(i);
        RunSnoc(s0, trace, RemoveCall);
        trace := trace + [RemoveCall];
        if d == Unknown { return Erred, trace; }
        if d != Done { return Waiting, trace; }
        CleanupShardResources(i, cleanups[i]);
        RunSnoc(s0, trace, Clean(cleanups[i]));
        trace := trace + [Clean(cleanups[i])];
        if !cleanups[i] { return Erred, trace; }
        i := i + 1;
      }
      RunSnoc(s0, trace, DrainDone);
      trace := trace + [DrainDone];
      r := Finished;
    }
  }
}
