/**
 Passes that read an outdated copy of the resource.  The controllers read through a cache; a
 status write from an old copy conflicts, fetches the newest object and applies its closure to
 that, with the values the pass had taken from the old copy.
 */
module UpgradeStale {
  import opened Options
  import opened Upgrade
  import opened UpgradeGenerations

  /** The status write of a move planned on `read`, applied to the newest object `o`. */
  function Reapplied(kind: Kind, o: Object, read: Object, seen: Seen, m: Move): Object {
    var ok, st := seen.write.ok, o.status;
    match m
    case Stay(_) => o
    case CreateBackup =>
      if read.spec.version in o.backups then o else o.(backups := o.backups[read.spec.version := Running])
    case Clear(_) => if ok then o.(status := PhaseCleared(st)) else o
    case Begin =>
      if ok then o.(status := Begun(st, o.spec, read.spec.version, seen.now).(previous := read.status.version)) else o
    case Roll => if ok then o.(status := st.(phase := Upgrading)) else o
    case Complete(fcv, raise) =>
      var o1 := if raise then o.(committed := fcv) else o;
      if ok then o1.(status := Finished(st, read.spec.version, fcv, o.gen)) else o1
    case StartRollback => if ok then o.(status := st.(phase := RollingBack)) else o
    case GiveUp => if ok then o.(status := GivenUp(st, o.gen)) else o
    case RollBack =>
      // the sharded closure has captured the version it goes back to; the replica set's reads it anew
      var previous := if kind.Sharded? then read.status.previous else st.previous;
      if ok then o.(status := RolledBack(st, o.gen).(effective := previous)) else o
  }

  /** The closing steps of a pass that has not written anything before them. */
  function StaleTail(kind: Kind, o: Object, read: Object, seen: Seen): Object {
    if !seen.tail.ok then o
    else if read.status.phase.Upgrading? then
      if kind.Sharded? && !seen.up then o
      else
        var start := if kind.Sharded? && o.status.start.Some? then o.status.start else Some(seen.now);
        o.(status := o.status.(phase := Validating, start := start))
    else if seen.finished && kind.ReplicaSet? then o.(status := o.status.(version := o.spec.version))
    else o
  }

  function StalePass(kind: Kind, o: Object, read: Object, seen: Seen): Object {
    var m := Plan(kind, read, seen);
    var o1 := Reapplied(kind, o, read, seen, m);
    if !seen.applyOk then o1
    else if m == Stay(Pass) then StaleTail(kind, o, read, seen)
    else if m == Clear(Pass) && seen.write.ok then TailTurn(kind, o1, seen)
    else o1
  }

  datatype Step = Fresh(event: Event) | Stale(read: Object, seen: Seen)

  function Take(kind: Kind, o: Object, st: Step): Object {
    match st
    case Fresh(e) => Apply(kind, o, e)
    case Stale(read, seen) => StalePass(kind, o, read, seen)
  }

  /** How often a run enters `phase` with the object at generation `g`. */
  function StaleEntries(kind: Kind, o: Object, steps: seq<Step>, phase: Phase, g: nat): nat
    decreases |steps|
  {
    if steps == [] then 0
    else
      var o' := Take(kind, o, steps[0]);
      (if o.status.phase != phase && o'.status.phase == phase && o'.gen == g then 1 else 0)
      + StaleEntries(kind, o', steps[1..], phase, g)
  }

  // ---------------------------------------------------------------- what a stale pass does

  /** The same resource, but for the counters. */
  predicate Alike(a: Object, b: Object) {
    && a.status == b.status && a.spec == b.spec && a.gen == b.gen
    && a.backups == b.backups && a.committed == b.committed
  }

  lemma ReappliedIsExecuted(kind: Kind, o: Object, seen: Seen, m: Move)
    requires seen.write.edits == [] && (m.CreateBackup? ==> o.spec.version !in o.backups)
    ensures Reapplied(kind, o, o, seen, m) == Execute(o, seen, m).o
    ensures Execute(o, seen, m).outcome.Pass? <==> m == Stay(Pass) || (m == Clear(Pass) && seen.write.ok)
  {
  }

  lemma CreatesOnlyMissing(kind: Kind, o: Object, seen: Seen)
    ensures Plan(kind, o, seen).CreateBackup? ==> o.spec.version !in o.backups
  {
  }

  lemma StaleTailIsTail(kind: Kind, o: Object, seen: Seen)
    requires seen.tail.edits == [] && o.status.phase in {NoPhase, Upgrading}
    ensures Alike(StaleTail(kind, o, o, seen), TailTurn(kind, o, seen))
    ensures kind.ReplicaSet? ==> StaleTail(kind, o, o, seen) == TailTurn(kind, o, seen)
  {
  }

  /**
   On a copy that is not stale at all, a stale pass is a pass: the same status, backups and FCV.
   (Only the counters of a sharded closing update are lost, as in every write that conflicts.)
   */
  lemma CurrentCopyIsAPass(kind: Kind, o: Object, seen: Seen)
    requires !NeedsSeed(o.status) && seen.write.edits == [] && seen.tail.edits == []
    ensures Alike(StalePass(kind, o, o, seen), ReconcileTurn(kind, o, seen))
    ensures kind.ReplicaSet? ==> StalePass(kind, o, o, seen) == ReconcileTurn(kind, o, seen)
  {
    var m := Plan(kind, o, seen);
    CreatesOnlyMissing(kind, o, seen);
    ReappliedIsExecuted(kind, o, seen, m);
    assert UpgradeTurn(kind, o, seen) == Execute(o, seen, m);
    if m == Stay(Pass) {
      PlanIsDue(kind, o, seen);
      StaleTailIsTail(kind, o, seen);
    }
  }

  /** What it takes from its copy: the target, and where to go back to. */
  lemma StaleBeginTakes(kind: Kind, o: Object, read: Object, seen: Seen)
    requires Inv(read) && !NeedsSeed(read.status) && read.status.version != read.spec.version
    requires read.status.phase.NoPhase? && read.status.observed != read.gen && seen.write.ok
    ensures var o' := StalePass(kind, o, read, seen);
            && o'.status.effective == read.spec.version && o'.status.previous == read.status.version
            && o'.status.phase == (if o.spec.backupFirst then BackingUp else Upgrading)
            && o'.status.version == o.status.version && o'.status.observed == o.status.observed
  {
  }

  /** A stale rollback of a sharded cluster goes where its copy says, one of a replica set where the object says. */
  lemma StaleRollbackTakes(kind: Kind, o: Object, read: Object, seen: Seen)
    requires Inv(read) && !NeedsSeed(read.status) && read.status.version != read.spec.version
    requires read.status.phase.RollingBack? && read.spec.rollbackOnFailure && seen.write.ok
    ensures var o' := StalePass(kind, o, read, seen);
            && o'.status.effective == (if kind.Sharded? then read.status.previous else o.status.previous)
            && o'.status.phase.NoPhase? && o'.status.rolledBack && o'.status.observed == o.gen
  {
  }

  // ---------------------------------------------------------------- when it still holds

  /** The copy may be old in everything except what tells how far the machine has come. */
  predicate UpToDate(o: Object, read: Object) {
    && !NeedsSeed(read.status) && !NeedsSeed(o.status)
    && read.gen == o.gen && read.spec == o.spec && read.status.phase == o.status.phase
    && read.status.version == o.status.version && read.status.observed == o.status.observed
  }

  ghost predicate ValidStep(o: Object, st: Step) {
    match st
    case Fresh(e) => ValidEvent(e)
    case Stale(read, seen) => Inv(read) && UpToDate(o, read) && ValidEvent(Reconcile(seen))
  }

  ghost predicate ValidSteps(kind: Kind, o: Object, steps: seq<Step>)
    decreases |steps|
  {
    steps == [] || (ValidStep(o, steps[0]) && ValidSteps(kind, Take(kind, o, steps[0]), steps[1..]))
  }

  lemma ReappliedForward(kind: Kind, o: Object, read: Object, seen: Seen, m: Move)
    requires Inv(o) && Inv(read) && UpToDate(o, read) && Due(kind, read, seen, m)
    ensures Forward(o, Reapplied(kind, o, read, seen, m))
    ensures m.Clear? && m.outcome.Pass? && seen.write.ok ==> Reapplied(kind, o, read, seen, m).status.phase.NoPhase?
  {
  }

  lemma StaleTailForward(kind: Kind, o: Object, read: Object, seen: Seen)
    requires Inv(o) && UpToDate(o, read) && o.status.phase in {NoPhase, Upgrading}
    ensures Forward(o, StaleTail(kind, o, read, seen))
  {
  }

  lemma TakeForward(kind: Kind, o: Object, st: Step)
    requires Inv(o) && ValidStep(o, st)
    ensures Forward(o, Take(kind, o, st))
  {
    match st
    case Fresh(e) => StepMovesForward(kind, o, e);
    case Stale(read, seen) =>
      var m := Plan(kind, read, seen);
      PlanIsDue(kind, read, seen);
      ReappliedForward(kind, o, read, seen, m);
      if m == Stay(Pass) {
        StaleTailForward(kind, o, read, seen);
      } else if m == Clear(Pass) && seen.write.ok {
        TailForward(kind, Reapplied(kind, o, read, seen, m), seen);
      }
  }

  lemma {:induction false} StaleEntriesBounded(kind: Kind, o: Object, steps: seq<Step>, phase: Phase, g: nat)
    requires Inv(o) && ValidSteps(kind, o, steps) && phase in {Upgrading, RollingBack}
    ensures StaleEntries(kind, o, steps, phase, g) <= Left(o, phase, g)
    decreases |steps|
  {
    if steps != [] {
      TakeForward(kind, o, steps[0]);
      StaleEntriesBounded(kind, Take(kind, o, steps[0]), steps[1..], phase, g);
    }
  }

  /**
   One rollout and one rollback per generation survive stale reads, as long as each copy is up
   to date in generation, phase, recorded version and recorded generation.
   */
  lemma OncePerGenerationOnStaleReads(kind: Kind, o: Object, steps: seq<Step>, g: nat)
    requires Inv(o) && ValidSteps(kind, o, steps)
    ensures StaleEntries(kind, o, steps, Upgrading, g) <= 1 && StaleEntries(kind, o, steps, RollingBack, g) <= 1
  {
    StaleEntriesBounded(kind, o, steps, Upgrading, g);
    StaleEntriesBounded(kind, o, steps, RollingBack, g);
  }

  // ---------------------------------------------------------------- exactly when it fails

  /**
   `read` is a copy the newest object may have grown out of: both are seeded, and a copy in some
   phase has left its previous version on record.
   */
  ghost predicate Copy(o: Object, read: Object) {
    && Sane(read) && !NeedsSeed(read.status) && !NeedsSeed(o.status)
    && (!read.status.phase.NoPhase? ==> o.status.previous != "")
  }

  predicate BackupBroken(read: Object) {
    read.spec.version in read.backups && read.backups[read.spec.version].Broken?
  }

  /** By its copy the pass has a rollout to start, or to go on with after its backup, or a phase to clear. */
  predicate Reopens(kind: Kind, o: Object, read: Object, seen: Seen) {
    var due := read.status.version != read.spec.version;
    var untried := o.status.observed != o.gen && o.status.version != o.spec.version;
    var closes := seen.applyOk && seen.finished && seen.tail.ok && (kind.ReplicaSet? || seen.tail.edits != []);
    && seen.write.ok
    && match read.status.phase
       case NoPhase =>
         && due && read.status.observed != read.gen
         && (if o.spec.backupFirst then o.status.version != o.spec.version else !o.status.phase.Upgrading?)
       case BackingUp =>
         || (due && seen.backupReadable && BackedUp(read) && !o.status.phase.Upgrading?)
         || (due && seen.backupReadable && BackupBroken(read) && untried)
         || (!due && untried && !closes)
       case _ => !due && untried && !closes
  }

  /** The same in terms of the move. */
  predicate ReopensBy(kind: Kind, o: Object, seen: Seen, m: Move) {
    var untried := o.status.observed != o.gen && o.status.version != o.spec.version;
    var closes := seen.applyOk && seen.finished && seen.tail.ok && (kind.ReplicaSet? || seen.tail.edits != []);
    && seen.write.ok
    && match m
       case Begin => if o.spec.backupFirst then o.status.version != o.spec.version else !o.status.phase.Upgrading?
       case Roll => !o.status.phase.Upgrading?
       case Clear(outcome) => untried && !(outcome.Pass? && closes)
       case _ => false
  }

  lemma ReopensIsByMove(kind: Kind, o: Object, read: Object, seen: Seen)
    requires Copy(o, read)
    ensures Reopens(kind, o, read, seen) <==> ReopensBy(kind, o, seen, Plan(kind, read, seen))
  {
  }

  /** The stale pass enters Upgrading, or leaves the generation so that a later pass can. */
  predicate Reopened(o: Object, o': Object) {
    o'.gen == o.gen && (Open(o', false) || (o'.status.phase.Upgrading? && !o.status.phase.Upgrading?))
  }

  lemma ReappliedReopens(kind: Kind, o: Object, read: Object, seen: Seen, m: Move)
    requires Sane(o) && Copy(o, read) && !Open(o, false) && Due(kind, read, seen, m)
    requires !(m.Clear? && m.outcome.Pass?)
    ensures Sane(Reapplied(kind, o, read, seen, m)) && !NeedsSeed(Reapplied(kind, o, read, seen, m).status)
    ensures Reopened(o, Reapplied(kind, o, read, seen, m)) <==> ReopensBy(kind, o, seen, m)
  {
  }

  lemma ClearedReopens(kind: Kind, o: Object, read: Object, seen: Seen, o': Object)
    requires Sane(o) && Copy(o, read) && !Open(o, false) && ValidEvent(Reconcile(seen))
    requires var o1 := Reapplied(kind, o, read, seen, Clear(Pass));
             o' == if seen.applyOk && seen.write.ok then TailTurn(kind, o1, seen) else o1
    ensures Sane(o') && o'.gen >= o.gen
    ensures Reopened(o, o') <==> ReopensBy(kind, o, seen, Clear(Pass))
  {
  }

  lemma StaleTailCloses(kind: Kind, o: Object, read: Object, seen: Seen)
    requires Sane(o) && Copy(o, read) && !Open(o, false)
    ensures Sane(StaleTail(kind, o, read, seen)) && !Reopened(o, StaleTail(kind, o, read, seen))
    ensures StaleTail(kind, o, read, seen).gen == o.gen
  {
  }

  lemma PassReopens(kind: Kind, o: Object, read: Object, seen: Seen)
    requires Sane(o) && Copy(o, read) && !Open(o, false) && ValidEvent(Reconcile(seen))
    ensures Sane(StalePass(kind, o, read, seen)) && StalePass(kind, o, read, seen).gen >= o.gen
    ensures Reopened(o, StalePass(kind, o, read, seen)) <==> Reopens(kind, o, read, seen)
  {
    var m := Plan(kind, read, seen);
    PlanIsDue(kind, read, seen);
    ReopensIsByMove(kind, o, read, seen);
    if m == Clear(Pass) {
      ClearedReopens(kind, o, read, seen, StalePass(kind, o, read, seen));
    } else {
      ReappliedReopens(kind, o, read, seen, m);
      if m == Stay(Pass) { StaleTailCloses(kind, o, read, seen); }
    }
  }

  /** With the stale pass, some continuation enters Upgrading at the newest object's generation. */
  ghost predicate RollsOutAgain(kind: Kind, o: Object, read: Object, seen: Seen) {
    var o' := StalePass(kind, o, read, seen);
    || (o'.gen == o.gen && o'.status.phase.Upgrading? && !o.status.phase.Upgrading?)
    || exists es: seq<Event> :: ValidRun(es) && Rollouts(kind, o', es, false, o.gen) >= 1
  }

  /**
   Exactly which copies let a generation that is through with its rollout have another one: the
   copy still shows a rollout to start, or a completed backup to go on from, or a phase to
   clear although the generation is not recorded as tried.
   */
  lemma StaleReopensIff(kind: Kind, o: Object, read: Object, seen: Seen)
    requires Sane(o) && Copy(o, read) && !Open(o, false) && ValidEvent(Reconcile(seen))
    ensures RollsOutAgain(kind, o, read, seen) <==> Reopens(kind, o, read, seen)
  {
    var o' := StalePass(kind, o, read, seen);
    PassReopens(kind, o, read, seen);
    if o'.gen == o.gen && Open(o', false) {
      var es := OpenRollsOut(kind, o', false);
    } else {
      forall es: seq<Event> | ValidRun(es) ensures Rollouts(kind, o', es, false, o.gen) == 0 {
        ClosedRun(kind, o', es, false, o.gen);
      }
    }
  }

  // ---------------------------------------------------------------- whole runs

  /** No stale pass meets a generation that is through with its rollout and reopens it. */
  ghost predicate NeverReopens(kind: Kind, o: Object, steps: seq<Step>)
    decreases |steps|
  {
    steps == [] ||
    (&& (match steps[0]
         case Fresh(e) => ValidEvent(e)
         case Stale(read, seen) =>
           && Copy(o, read) && ValidEvent(Reconcile(seen))
           && (Open(o, false) || !Reopens(kind, o, read, seen)))
     && NeverReopens(kind, Take(kind, o, steps[0]), steps[1..]))
  }

  /** What a run can still add at generation `g`. */
  function Remaining(o: Object, g: nat): nat {
    if o.gen > g || (o.gen == g && !Open(o, false)) then 0 else 1
  }

  lemma StaleKeepsSane(kind: Kind, o: Object, read: Object, seen: Seen)
    requires Sane(o) && Copy(o, read) && ValidEvent(Reconcile(seen))
    ensures Sane(StalePass(kind, o, read, seen)) && StalePass(kind, o, read, seen).gen >= o.gen
  {
    var m := Plan(kind, read, seen);
    PlanIsDue(kind, read, seen);
    ReappliedKeepsSane(kind, o, read, seen, m);
    TailKeepsSane(kind, Reapplied(kind, o, read, seen, m), seen);
  }

  lemma ReappliedKeepsSane(kind: Kind, o: Object, read: Object, seen: Seen, m: Move)
    requires Sane(o) && Copy(o, read) && Due(kind, read, seen, m)
    ensures Sane(Reapplied(kind, o, read, seen, m)) && Reapplied(kind, o, read, seen, m).gen == o.gen
  {
  }

  lemma StepSpends(kind: Kind, o: Object, st: Step, o': Object, g: nat)
    requires Sane(o) && o' == Take(kind, o, st) && NeverReopens(kind, o, [st])
    ensures Sane(o')
    ensures (if !o.status.phase.Upgrading? && o'.status.phase.Upgrading? && o'.gen == g then 1 else 0)
            + Remaining(o', g) <= Remaining(o, g)
  {
    match st
    case Fresh(e) =>
      StepKeepsSane(kind, o, e);
      if o.gen == o'.gen && !Open(o, false) { ClosedStep(kind, o, e, false); }
    case Stale(read, seen) =>
      StaleKeepsSane(kind, o, read, seen);
      if !Open(o, false) { PassReopens(kind, o, read, seen); }
  }

  /**
   One rollout per generation holds in every run, however old the copies, as long as no stale
   pass reopens a generation that is through with its rollout.
   */
  lemma {:induction false} OnceUnlessReopened(kind: Kind, o: Object, steps: seq<Step>, g: nat)
    requires Sane(o) && NeverReopens(kind, o, steps)
    ensures StaleEntries(kind, o, steps, Upgrading, g) <= Remaining(o, g) <= 1
    decreases |steps|
  {
    if steps != [] {
      assert [steps[0]][1..] == [];
      StepSpends(kind, o, steps[0], Take(kind, o, steps[0]), g);
      OnceUnlessReopened(kind, Take(kind, o, steps[0]), steps[1..], g);
    }
  }

  // ---------------------------------------------------------------- a run that fails

  lemma EntriesTake(kind: Kind, o: Object, st: Step, rest: seq<Step>, g: nat)
    ensures StaleEntries(kind, o, [st] + rest, Upgrading, g) ==
            var o' := Take(kind, o, st);
            (if !o.status.phase.Upgrading? && o'.status.phase.Upgrading? && o'.gen == g then 1 else 0)
            + StaleEntries(kind, o', rest, Upgrading, g)
  {
    assert ([st] + rest)[0] == st && ([st] + rest)[1..] == rest;
  }

  /** A copy two writes old makes the same generation roll out twice. */
  lemma StaleReadRollsOutTwice(kind: Kind, o: Object) returns (steps: seq<Step>)
    requires Inv(o) && Open(o, false) && o.status.phase.NoPhase? && !NeedsSeed(o.status) && !o.spec.backupFirst
    ensures StaleEntries(kind, o, steps, Upgrading, o.gen) == 2
  {
    var calm := Calm(0, o.counters);
    var newest, stale := Fresh(Reconcile(calm)), Stale(o, calm);
    var o1 := o.(status := Begun(o.status, o.spec, o.spec.version, 0));
    assert Take(kind, o, newest) == o1;
    var o2 := o1.(status := o1.status.(phase := Validating));
    assert Take(kind, o1, newest) == o2;
    assert Plan(kind, o, calm) == Begin;
    assert Take(kind, o2, stale).status.phase.Upgrading? && Take(kind, o2, stale).gen == o.gen;
    EntriesTake(kind, o2, stale, [], o.gen);
    EntriesTake(kind, o1, newest, [stale] + [], o.gen);
    EntriesTake(kind, o, newest, [newest] + ([stale] + []), o.gen);
    steps := [newest] + ([newest] + ([stale] + []));
  }
}
