/**
 What scaling achieves when its calls succeed
 (internal/controller/mongodbsharded_controller.go): whole reconcile passes as runs of the
 protocol of module ShardLifecycle, from the edit of the count to the closing status update.
 */
module ShardScaling {
  import opened ShardLifecycle

  /** 0, ..., n-1. */
  function UpTo(n: nat): (r: set<nat>)
    ensures forall i: nat :: i in r <==> i < n
  {
    if n == 0 then {} else UpTo(n - 1) + {n - 1}
  }

  // ---------------------------------------------------------------- putting runs together

  lemma {:induction false} RunConcat(s: State, xs: seq<Event>, ys: seq<Event>)
    requires Legal(s, xs) && Legal(Run(s, xs), ys)
    ensures Legal(s, xs + ys) && Run(s, xs + ys) == Run(Run(s, xs), ys)
    decreases |xs|
  {
    if xs == [] {
      assert xs + ys == ys;
    } else {
      assert (xs + ys)[0] == xs[0] && (xs + ys)[1..] == xs[1..] + ys;
      RunConcat(Apply(s, xs[0]), xs[1..], ys);
    }
  }

  lemma RunOne(s: State, e: Event)
    requires Enabled(s, e)
    ensures Legal(s, [e]) && Run(s, [e]) == Apply(s, e)
  {
    assert [e][1..] == [];
  }

  /** The StatefulSets of all declared shards. */
  function ApplyAll(n: nat): seq<Event> {
    if n == 0 then [] else ApplyAll(n - 1) + [ApplyShard(n - 1)]
  }

  lemma {:induction false} ApplyAllRuns(s: State, n: nat)
    requires s.ctl.Preparing? && n <= s.ctl.m.declared
    ensures Legal(s, ApplyAll(n)) && Run(s, ApplyAll(n)) == s.(intact := s.intact + UpTo(n))
  {
    if n > 0 {
      ApplyAllRuns(s, n - 1);
      RunSnoc(s, ApplyAll(n - 1), ApplyShard(n - 1));
      assert s.intact + UpTo(n - 1) + {n - 1} == s.intact + UpTo(n);
    }
  }

  // ---------------------------------------------------------------- the opening of a pass

  /** Every declared shard is flagged, or its check and initiation go well. */
  predicate Answers(s: State, outcomes: seq<InitOutcome>) {
    && |outcomes| == s.count
    && (forall i: nat | i < s.count && outcomes[i] == AlreadyInitialized :: i in s.initiated)
    && (forall i: nat | i < s.count :: Flag(s.initialized, i) || outcomes[i] in {AlreadyInitialized, Initiated})
  }

  /** A pass up to the point where surplus shards are looked at. */
  function Opening(s: State, outcomes: seq<InitOutcome>, whole: bool): seq<Event> {
    [Start] + ApplyAll(s.count) + [InitShards(outcomes, true, whole)]
  }

  function Opened(s: State, outcomes: seq<InitOutcome>): State
    requires |outcomes| == s.count
  {
    var init, formed := InitPass(s.initialized, s.count, outcomes), Formed(s.initialized, s.count, outcomes);
    s.(initialized := init, intact := s.intact + UpTo(s.count),
       initiated := s.initiated + formed, removed := s.removed - formed,
       ctl := Draining(Memory(s.count, s.listed, init, s.added), s.count))
  }

  lemma Prepared(s: State)
    requires s.ctl.Idle?
    ensures var s2 := s.(intact := s.intact + UpTo(s.count),
                         ctl := Preparing(Memory(s.count, s.listed, s.initialized, s.added)));
            Legal(s, [Start] + ApplyAll(s.count)) && Run(s, [Start] + ApplyAll(s.count)) == s2
  {
    var s1 := Apply(s, Start);
    RunOne(s, Start);
    ApplyAllRuns(s1, s.count);
    RunConcat(s, [Start], ApplyAll(s.count));
  }

  /** Whether or not its status write meets a conflict, the opening ends in the same state. */
  lemma OpeningRuns(s: State, outcomes: seq<InitOutcome>, whole: bool)
    requires s.ctl.Idle? && Answers(s, outcomes)
    ensures Legal(s, Opening(s, outcomes, whole)) && Run(s, Opening(s, outcomes, whole)) == Opened(s, outcomes)
    ensures AllFlagged(Opened(s, outcomes).initialized, s.count)
  {
    Prepared(s);
    var pre := [Start] + ApplyAll(s.count);
    var s2 := Run(s, pre);
    assert Enabled(s2, InitShards(outcomes, true, whole));
    RunSnoc(s, pre, InitShards(outcomes, true, whole));
  }

  /** Flags that can be relied on: what is recorded as initialized or added really is. */
  ghost predicate Reliable(s: State, n: nat) {
    forall i: nat | i < n :: (Flag(s.initialized, i) ==> i in s.initiated) && (Flag(s.added, i) ==> i in s.registered)
  }

  // ---------------------------------------------------------------- the end of a pass

  /** addShard for every declared shard, and the closing status update. */
  function Ending(n: nat, whole: bool): seq<Event> {
    [AddShards(seq(n, _ => true), true, whole)] + [Close(n, true, true)]
  }

  /** The state before it: in the middle of a pass on the current count, every declared shard ready to be added. */
  ghost predicate ReadyToAdd(s: State) {
    && s.ctl.Adding? && s.ctl.m.declared == s.count && s.ctl.m.upto == s.listed
    && AllFlagged(s.ctl.m.init, s.count) && AllFlagged(s.initialized, s.count)
    && (forall i: nat | i < s.count && !Flag(s.ctl.m.added, i) :: i in s.intact && i in s.initiated)
    && (forall i: nat | i < s.count && Flag(s.ctl.m.added, i) :: i in s.registered)
  }

  lemma EndingRuns(s: State, whole: bool)
    requires ReadyToAdd(s)
    ensures Legal(s, Ending(s.count, whole))
    ensures var r, m := Run(s, Ending(s.count, whole)), s.ctl.m;
            && r.ctl.Idle? && r.count == s.count && r.listed == s.count && r.home == s.home
            && r.registered == s.registered + UpTo(s.count) && r.draining == s.draining
            && r.intact == s.intact && r.initiated == s.initiated && r.removed == s.removed
            && AllFlagged(r.added, s.count) && AllFlagged(r.initialized, s.count)
            && (forall i: nat | i >= s.count :: Flag(r.added, i) <==> Flag(m.added, i))
            && r.initialized == (if whole then m.init else s.initialized)
  {
    var all := seq(s.count, _ => true);
    var add := AddShards(all, true, whole);
    assert Enabled(s, add);
    var s1 := Apply(s, add);
    assert s1.registered == s.registered + UpTo(s.count);
    assert s1.ctl.Closing? && s1.ctl.m.declared == s.count;
    RunOne(s, add);
    RunOne(s1, Close(s.count, true, true));
    RunConcat(s, [add], [Close(s.count, true, true)]);
  }

  // ---------------------------------------------------------------- scaling out

  /**
   Scaling out completes in one pass: after the count is raised to `n`, all declared shards are
   deployed, initiated, registered and flagged, the status lists them, and no chunk has moved.
   */
  lemma ScaleOutCompletes(s: State, n: nat, outcomes: seq<InitOutcome>, w1: bool, w2: bool) returns (es: seq<Event>)
    requires Inv(s) && s.ctl.Idle? && s.listed <= n && Reliable(s, n) && Answers(s.(count := n), outcomes)
    ensures Legal(s, es)
    ensures var r := Run(s, es);
            && r.ctl.Idle? && r.count == n && r.listed == n && r.home == s.home && r.draining == s.draining
            && r.registered == s.registered + UpTo(n) && r.intact == s.intact + UpTo(n)
            && UpTo(n) <= r.initiated && AllFlagged(r.initialized, n) && AllFlagged(r.added, n)
            && forall i: nat | i >= n :: Flag(r.added, i) <==> Flag(s.added, i)
  {
    var d := Apply(s, Declare(n));
    assert d == s.(count := n);
    RunOne(s, Declare(n));
    OpeningRuns(d, outcomes, w1);
    var o := Opened(d, outcomes);
    RunConcat(s, [Declare(n)], Opening(d, outcomes, w1));
    var pre := [Declare(n)] + Opening(d, outcomes, w1);
    RunSnoc(s, pre, DrainDone);
    var a := Apply(o, DrainDone);
    assert ReadyToAdd(a);
    EndingRuns(a, w2);
    RunConcat(s, pre + [DrainDone], Ending(n, w2));
    es := (pre + [DrainDone]) + Ending(n, w2);
  }

  // ---------------------------------------------------------------- scaling in

  /** A pass that meets a surplus shard not yet draining tells it to drain, and changes nothing else there. */
  lemma DrainStarts(s: State, outcomes: seq<InitOutcome>, whole: bool)
    requires s.ctl.Idle? && Answers(s, outcomes) && s.count < s.listed
    requires s.count in s.registered && s.count !in s.draining
    ensures Legal(s, Opening(s, outcomes, whole) + [RemoveCall])
    ensures Run(s, Opening(s, outcomes, whole) + [RemoveCall]) ==
            Opened(s, outcomes).(draining := s.draining + {s.count}, ctl := Idle)
  {
    OpeningRuns(s, outcomes, whole);
    RunSnoc(s, Opening(s, outcomes, whole), RemoveCall);
  }

  /** While it still holds a chunk, a pass waits. */
  lemma DrainWaits(s: State, outcomes: seq<InitOutcome>, whole: bool)
    requires s.ctl.Idle? && Answers(s, outcomes) && s.count < s.listed
    requires s.count in s.registered && s.count in s.draining && exists c | c in s.home :: s.home[c] == s.count
    ensures Legal(s, Opening(s, outcomes, whole) + [RemoveCall])
    ensures Run(s, Opening(s, outcomes, whole) + [RemoveCall]) == Opened(s, outcomes).(ctl := Idle)
  {
    OpeningRuns(s, outcomes, whole);
    RunSnoc(s, Opening(s, outcomes, whole), RemoveCall);
  }

  /** Moving a shard's chunks to another one empties it, and loses none. */
  lemma {:induction false} MovingEmpties(s: State, from: nat, to: nat, cs: set<Chunk>) returns (es: seq<Event>)
    requires to in s.registered && to !in s.draining && to != from
    requires forall c | c in s.home && s.home[c] == from :: c in cs
    requires cs <= s.home.Keys
    ensures Legal(s, es) && Run(s, es) == s.(home := map c | c in s.home :: if c in cs then to else s.home[c])
    ensures Empty(Run(s, es), from)
    decreases |cs|
  {
    if cs == {} {
      es := [];
      assert s.home == map c | c in s.home :: if c in cs then to else s.home[c];
    } else {
      var c :| c in cs;
      var s1 := Apply(s, Place(c, to));
      assert s1 == s.(home := s.home[c := to]);
      var rest := MovingEmpties(s1, from, to, cs - {c});
      RunOne(s, Place(c, to));
      RunConcat(s, [Place(c, to)], rest);
      es := [Place(c, to)] + rest;
    }
  }

  /** removeShard and cleanup of the drained first surplus shard. */
  lemma FirstLeaves(s: State, outcomes: seq<InitOutcome>, whole: bool) returns (es: seq<Event>)
    requires s.ctl.Idle? && Answers(s, outcomes) && s.count < s.listed && Drained(s, s.count)
    ensures Legal(s, es)
    ensures var r, o, i := Run(s, es), Opened(s, outcomes), s.count;
            r == o.(registered := o.registered - {i}, draining := o.draining - {i}, intact := o.intact - {i},
                    initiated := o.initiated - {i}, removed := o.removed + {i},
                    ctl := Draining(Memory(i, s.listed, Unflag(o.initialized, i), Unflag(s.added, i)), i + 1))
  {
    OpeningRuns(s, outcomes, whole);
    var pre := Opening(s, outcomes, whole);
    RunSnoc(s, pre, RemoveCall);
    RunSnoc(s, pre + [RemoveCall], Clean(true));
    es := (pre + [RemoveCall]) + [Clean(true)];
  }

  /**
   A scale-in by one completes once the shard is drained: it is gone from the cluster with its
   volumes, the status no longer lists it and no longer has it as added, and every chunk stays
   where it is.  Its initialized flag goes too, unless the write after addShard met a conflict.
   */
  lemma DrainedShardLeaves(s: State, outcomes: seq<InitOutcome>, w1: bool, w2: bool) returns (es: seq<Event>)
    requires Inv(s) && s.ctl.Idle? && Answers(s, outcomes) && s.listed == s.count + 1 && Drained(s, s.count)
    requires Reliable(s, s.count)
    ensures Legal(s, es)
    ensures var r, i := Run(s, es), s.count;
            && r.ctl.Idle? && r.count == i && r.listed == i && r.home == s.home && UpTo(i) <= r.registered
            && i !in r.registered && i !in r.draining && i !in r.intact && i !in r.initiated && i in r.removed
            && !Flag(r.added, i) && (Flag(r.initialized, i) <==> !w2 && Flag(s.initialized, i))
            && AllFlagged(r.added, i) && AllFlagged(r.initialized, i)
  {
    var pre := FirstLeaves(s, outcomes, w1);
    var o := Run(s, pre);
    RunSnoc(s, pre, DrainDone);
    var a := Apply(o, DrainDone);
    assert ReadyToAdd(a);
    EndingRuns(a, w2);
    RunConcat(s, pre + [DrainDone], Ending(s.count, w2));
    es := (pre + [DrainDone]) + Ending(s.count, w2);
  }

  /**
   A scale-in by two or more does not: the pass that removes the first shard goes on to tell the
   second one to drain, stops there, and from then on no run finishes the scale-in.
   */
  lemma ScaleInByTwoSticks(s: State, outcomes: seq<InitOutcome>, whole: bool) returns (es: seq<Event>)
    requires Inv(s) && s.ctl.Idle? && Answers(s, outcomes) && s.count + 1 < s.listed && Drained(s, s.count)
    requires s.count + 1 in s.registered && s.count + 1 !in s.draining
    ensures Legal(s, es)
    ensures var r := Run(s, es);
            && Stuck(r, s.count) && s.count + 1 in r.draining && r.listed == s.listed && r.added == s.added
            && forall fs: seq<Event> | Legal(r, fs) && (forall k | 0 <= k < |fs| :: !fs[k].Declare?) ::
                 Run(r, fs).listed == s.listed
  {
    var pre := FirstLeaves(s, outcomes, whole);
    RunSnoc(s, pre, RemoveCall);
    es := pre + [RemoveCall];
    var r := Run(s, es);
    forall fs: seq<Event> | Legal(r, fs) && (forall k | 0 <= k < |fs| :: !fs[k].Declare?)
      ensures Run(r, fs).listed == s.listed
    {
      StuckForGood(r, fs, s.count);
    }
  }

  // ---------------------------------------------------------------- passes that fail

  /** When the status write of the init pass is lost, its flags survive only with the recorded error. */
  lemma LostInitWrite(s: State, outcomes: seq<InitOutcome>, whole: bool, persists: bool)
    requires s.ctl.Preparing? && Enabled(s, InitShards(outcomes, false, whole))
    ensures var r := Run(s, [InitShards(outcomes, false, whole)] + [Abort(persists)]);
            Legal(s, [InitShards(outcomes, false, whole)] + [Abort(persists)]) && r.ctl.Idle? &&
            forall i: nat ::
              && (Flag(r.initialized, i) <==>
                  if persists
                  then Flag(s.ctl.m.init, i) || (i < |outcomes| && outcomes[i] in {AlreadyInitialized, Initiated})
                  else Flag(s.initialized, i))
              && (Flag(r.added, i) <==> if persists then Flag(s.ctl.m.added, i) else Flag(s.added, i))
  {
    var e := InitShards(outcomes, false, whole);
    RunOne(s, e);
    RunOne(Apply(s, e), Abort(persists));
    RunConcat(s, [e], [Abort(persists)]);
  }

  /** A shard that cannot be initialized keeps the pass from going on; the others' flags are recorded. */
  lemma FailedInitStops(s: State, outcomes: seq<InitOutcome>, whole: bool, i: nat)
    requires s.ctl.Preparing? && Enabled(s, InitShards(outcomes, true, whole)) && i < |outcomes|
    requires !Flag(s.ctl.m.init, i) && outcomes[i] !in {AlreadyInitialized, Initiated}
    ensures var r := Apply(s, InitShards(outcomes, true, whole));
            && r.ctl.Failed? && !Flag(r.initialized, i)
            && forall j: nat | j < |outcomes| && outcomes[j] in {AlreadyInitialized, Initiated} ::
                 Flag(r.initialized, j)
  {
  }

  /** What addShard leaves: the accepted shards are registered at once, and flagged by whichever write gets through. */
  lemma AddLeaves(s: State, accepted: seq<bool>, written: bool, whole: bool, persists: bool)
    requires s.ctl.Adding? && Enabled(s, AddShards(accepted, written, whole))
    requires AllFlagged(s.ctl.m.init, s.ctl.m.declared)
    ensures var r1 := Apply(s, AddShards(accepted, written, whole));
            && (r1.ctl.Closing? || r1.ctl.Failed?)
            && r1.initialized == (if written && whole then s.ctl.m.init else s.initialized)
            && (r1.ctl.Closing? <==> written && forall i: nat | i < |accepted| :: Flag(s.ctl.m.added, i) || accepted[i])
            && (forall i: nat :: i in r1.registered <==>
                  i in s.registered || (i < |accepted| && accepted[i] && !Flag(s.ctl.m.added, i)))
            && (forall i: nat :: Flag(Apply(r1, Abort(persists)).added, i) <==>
                  if written || persists then Flag(s.ctl.m.added, i) || (i < |accepted| && accepted[i])
                  else Flag(s.added, i))
            && Apply(r1, Abort(persists)).ctl.Idle?
  {
  }

  /** Before every declared shard is initialized, the pass adds nothing and goes straight to its end. */
  lemma AddWaits(s: State, accepted: seq<bool>, written: bool, whole: bool)
    requires s.ctl.Adding? && Enabled(s, AddShards(accepted, written, whole))
    requires !AllFlagged(s.ctl.m.init, s.ctl.m.declared)
    ensures var r := Apply(s, AddShards(accepted, written, whole));
            && r == s.(ctl := r.ctl) && r.ctl.Closing? && r.ctl.m.init == s.ctl.m.init
            && |r.ctl.m.added| >= s.ctl.m.declared
            && forall i: nat :: Flag(r.ctl.m.added, i) <==> Flag(s.ctl.m.added, i)
  {
  }

  /** The closing update records the shards found and the pass's flags, or nothing. */
  lemma CloseRecords(s: State, found: nat, written: bool, whole: bool)
    requires s.ctl.Closing? && found <= s.ctl.m.declared
    ensures var r := Apply(s, Close(found, written, whole));
            && r.ctl.Idle? && r.registered == s.registered
            && (written && whole ==> r.listed == found && r.initialized == s.ctl.m.init && r.added == s.ctl.m.added)
            && (!(written && whole) ==> r == s.(ctl := Idle))
  {
  }
}
