/**
 What one whole reconcile pass does to the resource in each phase, in fields of the resource and
 of what the pass observes (internal/controller/upgrade.go, internal/controller/sharded_upgrade.go
 and the reconcile steps around them).  Durations are in seconds.
 */
module UpgradePasses {
  import opened Options
  import opened VersionText
  import opened Upgrade

  /** The status write of the upgrade step gets through, and no edit lands before it. */
  predicate Lands(seen: Seen) {
    seen.write.ok && seen.write.edits == []
  }

  /** An upgrade is asked for, and the versions are seeded. */
  predicate Wanted(o: Object) {
    o.gen >= 1 && o.status.effective != "" && o.status.version != "" && o.status.version != o.spec.version
  }

  // ---------------------------------------------------------------- validation

  /** The configured observation interval, a minute unless given. */
  function Observation(o: Object): int {
    match o.spec.interval
    case None => 60
    case Some(d) => d
  }

  /** Three minutes per member on top of it, for at least one member. */
  function Patience(o: Object): int {
    Observation(o) + 180 * (if o.spec.members >= 1 then o.spec.members else 1)
  }

  /** A replica set's rollout is complete; a sharded cluster's recorded counters are full. */
  predicate Deployed(kind: Kind, o: Object, seen: Seen) {
    match kind
    case ReplicaSet => seen.rollout == RolledOut
    case Sharded =>
      && o.counters.config.ready >= o.counters.config.total && o.counters.mongos.ready >= o.counters.mongos.total
      && forall i | 0 <= i < |o.counters.shards| :: o.counters.shards[i].ready >= o.counters.shards[i].total
  }

  predicate Passes(kind: Kind, o: Object, seen: Seen, waited: int) {
    Deployed(kind, o, seen) && waited >= Observation(o)
  }

  /** Out of patience; a replica set whose rollout is stuck fails at once, an unreadable one never. */
  predicate Fails(kind: Kind, o: Object, seen: Seen, waited: int) {
    match kind
    case ReplicaSet => seen.rollout == Rolling(true) || (seen.rollout == Rolling(false) && waited >= Patience(o))
    case Sharded => !Deployed(kind, o, seen) && waited >= Patience(o)
  }

  lemma VerdictMeans(kind: Kind, o: Object, seen: Seen, start: Time)
    requires o.status.start == Some(start)
    ensures Verdict(kind, o, seen) == Commit <==> Passes(kind, o, seen, seen.now - start)
    ensures Verdict(kind, o, seen) == Fail <==> Fails(kind, o, seen, seen.now - start)
  {
    assert Timeout(o.spec) == Patience(o) > Observation(o) == Interval(o.spec);
  }

  /** What the moves of a validation change. */
  lemma MoveIsCautious(kind: Kind, o: Object, seen: Seen, m: Move)
    requires Due(kind, o, seen, m) && Wanted(o) && o.status.phase == Validating
    ensures var t := Execute(o, seen, m);
            && (t.o.committed != o.committed || t.o.status.version != o.status.version ==>
                  Verdict(kind, o, seen) == Commit)
            && (t.o.status.phase == RollingBack ==> Verdict(kind, o, seen) == Fail)
            && (t.o.status.phase == NoPhase && t.o.status.version == o.status.version ==>
                  Verdict(kind, o, seen) == Fail)
            && !t.outcome.Pass?
  {
  }

  /**
   The irreversible steps come only after their conditions, whatever fails and whichever edits
   land: the FCV and the version after the interval with everything deployed, a rollback or
   giving up when the rollout is stuck or out of patience.
   */
  lemma ValidationIsCautious(kind: Kind, o: Object, seen: Seen, start: Time)
    requires Wanted(o) && o.status.phase == Validating && o.status.start == Some(start)
    ensures var o', waited := ReconcileTurn(kind, o, seen), seen.now - start;
            && (o'.committed != o.committed || o'.status.version != o.status.version ==> Passes(kind, o, seen, waited))
            && (o'.status.phase == RollingBack ==> Fails(kind, o, seen, waited))
            && (o'.status.phase == NoPhase && o'.status.version == o.status.version ==> Fails(kind, o, seen, waited))
            && Applied(kind, o, seen) == None
  {
    VerdictMeans(kind, o, seen, start);
    PlanIsDue(kind, o, seen);
    MoveIsCautious(kind, o, seen, Plan(kind, o, seen));
  }

  /** And they do come: what a validation pass leaves behind when its calls succeed. */
  lemma ValidationPass(kind: Kind, o: Object, seen: Seen, start: Time)
    requires Wanted(o) && o.status.phase == Validating && o.status.start == Some(start) && Lands(seen)
    ensures var o', waited, st := ReconcileTurn(kind, o, seen), seen.now - start, o.status;
            && (Fails(kind, o, seen, waited) && o.spec.rollbackOnFailure ==>
                  o' == o.(status := st.(phase := RollingBack)))
            && (Fails(kind, o, seen, waited) && !o.spec.rollbackOnFailure ==>
                  o' == o.(status := st.(phase := NoPhase, start := None, observed := o.gen)))
            && (!Fails(kind, o, seen, waited) && !Passes(kind, o, seen, waited) ==> o' == o)
  {
  }

  /** A passed validation raises the FCV to the target's major.minor, unless recorded, and completes. */
  lemma CompletingPass(kind: Kind, o: Object, seen: Seen, start: Time)
    requires Wanted(o) && o.status.phase == Validating && o.status.start == Some(start) && Lands(seen)
    requires Passes(kind, o, seen, seen.now - start)
    ensures var o', fcv := ReconcileTurn(kind, o, seen), FcvMajorMinor(o.spec.version);
            if fcv == "" || (o.status.fcv != fcv && !seen.fcvOk) then o' == o
            else
              && o'.status ==
                 Status(NoPhase, o.spec.version, o.spec.version, o.status.previous, fcv, o.gen, 0, None, false)
              && o'.committed == (if o.status.fcv == fcv then o.committed else fcv)
              && o'.spec == o.spec && o'.gen == o.gen && o'.backups == o.backups && o'.counters == o.counters
  {
  }

  // ---------------------------------------------------------------- the other phases

  /** An untried generation begins: the version of now is kept to go back to, the target is set. */
  lemma BeginningPass(kind: Kind, o: Object, seen: Seen)
    requires Wanted(o) && o.status.phase == NoPhase && o.status.observed != o.gen
    ensures var o', st := ReconcileTurn(kind, o, seen), o.status;
            && Applied(kind, o, seen) == None && (!seen.write.ok ==> o' == o)
            && (Lands(seen) ==>
                  o' == o.(status := st.(previous := st.version, effective := o.spec.version, rolledBack := false,
                                         start := Some(seen.now),
                                         phase := if o.spec.backupFirst then BackingUp else Upgrading)))
  {
  }

  /** With a backup first: it is created when missing, waited for, and decides how to go on. */
  lemma BackupPass(kind: Kind, o: Object, seen: Seen)
    requires Wanted(o) && o.status.phase == BackingUp
    ensures var o', st, v := ReconcileTurn(kind, o, seen), o.status, o.spec.version;
            && Applied(kind, o, seen) == None
            && (v !in o.backups && seen.backupReadable && seen.createOk ==>
                  o' == o.(backups := o.backups[v := Running]))
            && (v !in o.backups && !seen.createOk ==> o' == o)
            && (!seen.backupReadable && (kind == Sharded || v in o.backups) ==> o' == o)
            && (v in o.backups && seen.backupReadable && Lands(seen) ==>
                  match o.backups[v]
                  case Running => o' == o
                  case Completed => o' == o.(status := st.(phase := Upgrading))
                  case Broken => o' == o.(status := st.(phase := NoPhase, start := None)))
  {
  }

  /** The rollout applies the target and moves on to validation, when a sharded cluster's parts are up. */
  lemma RolloutPass(kind: Kind, o: Object, seen: Seen)
    requires Wanted(o) && o.status.phase == Upgrading
    ensures var o', st := ReconcileTurn(kind, o, seen), o.status;
            && Applied(kind, o, seen) == (if seen.applyOk then Some(st.effective) else None)
            && (!seen.applyOk || !seen.tail.ok || (kind == Sharded && !seen.up) ==> o' == o)
            && (seen.applyOk && seen.tail == Write(true, []) && (kind == Sharded ==> seen.up) ==>
                  o' == o.(status := st.(phase := Validating,
                                         start := if kind == Sharded && st.start != None then st.start
                                                  else Some(seen.now))))
  {
  }

  /** A rollback goes back to the previous version and counts as one more try of the generation. */
  lemma RollbackPass(kind: Kind, o: Object, seen: Seen)
    requires Wanted(o) && o.status.phase == RollingBack && Lands(seen)
    ensures var o', st := ReconcileTurn(kind, o, seen), o.status;
            && Applied(kind, o, seen) == None
            && o' == o.(status :=
                          if st.previous == "" then st.(phase := NoPhase, start := None)
                          else if !o.spec.rollbackOnFailure then st.(phase := NoPhase, start := None, observed := o.gen)
                          else st.(effective := st.previous, rolledBack := true, phase := NoPhase, start := None,
                                   retries := st.retries + 1, observed := o.gen))
  {
  }

  /** Once tried, a generation keeps running what it ended on. */
  lemma TriedPass(kind: Kind, o: Object, seen: Seen)
    requires Wanted(o) && o.status.phase == NoPhase && o.status.observed == o.gen
    ensures var o' := ReconcileTurn(kind, o, seen);
            && Applied(kind, o, seen) == (if seen.applyOk then Some(o.status.effective) else None)
            && o'.status.phase == NoPhase && o'.status.effective == o.status.effective
            && o'.status.observed == o.status.observed && o'.committed == o.committed
  {
  }

  /** On the recorded version a leftover phase is cleared, and the workload is applied. */
  lemma SettledPass(kind: Kind, o: Object, seen: Seen)
    requires o.status.effective != "" && o.status.version == o.spec.version != ""
    requires Lands(seen) && seen.tail.edits == []
    ensures var o', st := ReconcileTurn(kind, o, seen), o.status;
            && Applied(kind, o, seen) == (if seen.applyOk then Some(st.effective) else None)
            && o'.status == (if st.phase == NoPhase then st else st.(phase := NoPhase, start := None))
            && o'.counters == (if kind == Sharded && seen.applyOk && seen.finished && seen.tail.ok then seen.counters
                               else o.counters)
            && o'.spec == o.spec && o'.gen == o.gen && o'.backups == o.backups && o'.committed == o.committed
  {
  }

  /** Blank versions are filled in first, and only blank ones; the pass then goes on from there. */
  lemma SeedingPass(kind: Kind, o: Object, seen: Seen)
    requires o.spec.version != "" && (o.status.effective == "" || o.status.version == "")
    ensures var e := if o.status.effective == "" then o.spec.version else o.status.effective;
            var v := if o.status.version == "" then e else o.status.version;
            var o1 := o.(status := o.status.(effective := e, version := v));
            if seen.seedOk
            then
              && ReconcileTurn(kind, o, seen) == ReconcileTurn(kind, o1, seen)
              && Applied(kind, o, seen) == Applied(kind, o1, seen)
            else ReconcileTurn(kind, o, seen) == o && Applied(kind, o, seen) == None
  {
  }

  // ---------------------------------------------------------------- how the upgrade step ends

  /** The step has something to write to the status. */
  predicate HasToWrite(kind: Kind, o: Object, seen: Seen) {
    match o.status.phase
    case NoPhase => o.status.observed != o.gen
    case BackingUp => seen.backupReadable && o.spec.version in o.backups && o.backups[o.spec.version] != Running
    case Upgrading => false
    case Validating =>
      var fcv := FcvMajorMinor(o.spec.version);
      o.status.start != None &&
      var waited := seen.now - o.status.start.value;
      || Fails(kind, o, seen, waited)
      || (Passes(kind, o, seen, waited) && fcv != "" && (o.status.fcv == fcv || seen.fcvOk))
    case RollingBack => true
  }

  /** The backup cannot be read or created.  (A replica set takes an unreadable one for missing.) */
  predicate BackupTrouble(kind: Kind, o: Object, seen: Seen) {
    o.status.phase == BackingUp &&
    if seen.backupReadable then o.spec.version !in o.backups && !seen.createOk
    else kind == Sharded || !seen.createOk || o.spec.version in o.backups
  }

  lemma ValidatingEnds(kind: Kind, o: Object, seen: Seen)
    requires Wanted(o) && o.status.phase == Validating
    ensures UpgradeTurn(kind, o, seen).outcome ==
            (if HasToWrite(kind, o, seen) && !seen.write.ok then Error else Handled)
  {
    if o.status.start != None { VerdictMeans(kind, o, seen, o.status.start.value); }
    assert UpgradeTurn(kind, o, seen) == Execute(o, seen, ValidationPlan(kind, o, seen));
  }

  lemma BackingUpEnds(kind: Kind, o: Object, seen: Seen)
    requires Wanted(o) && o.status.phase == BackingUp
    ensures UpgradeTurn(kind, o, seen).outcome ==
            (if (HasToWrite(kind, o, seen) && !seen.write.ok) || BackupTrouble(kind, o, seen) then Error else Handled)
  {
    assert UpgradeTurn(kind, o, seen) == Execute(o, seen, BackupPlan(kind, o, seen));
  }

  /**
   With an upgrade wanted, the step returns an error exactly when a write or the backup fails,
   and lets the pass go on exactly when there is nothing to do or the rollout is under way.
   A refused FCV is no error: it is tried again.
   */
  lemma StepEnds(kind: Kind, o: Object, seen: Seen)
    requires Wanted(o)
    ensures var out := UpgradeTurn(kind, o, seen).outcome;
            && (out == Error <==> (HasToWrite(kind, o, seen) && !seen.write.ok) || BackupTrouble(kind, o, seen))
            && (out == Pass <==>
                o.status.phase == Upgrading || (o.status.phase == NoPhase && o.status.observed == o.gen))
  {
    match o.status.phase
    case Validating => ValidatingEnds(kind, o, seen);
    case BackingUp => BackingUpEnds(kind, o, seen);
    case _ =>
  }

  /** On the recorded version the pass goes on, unless a leftover phase cannot be cleared. */
  lemma SettledStepEnds(kind: Kind, o: Object, seen: Seen)
    requires o.status.effective != "" && o.status.version == o.spec.version != ""
    ensures UpgradeTurn(kind, o, seen).outcome == (if o.status.phase == NoPhase || seen.write.ok then Pass else Error)
  {
  }

  // ---------------------------------------------------------------- over whole runs

  /** A phase has a start time and goes back to the recorded version; without a phase there is no start time. */
  ghost predicate Kept(o: Object) {
    && (o.status.phase == NoPhase <==> o.status.start == None)
    && (o.status.phase != NoPhase ==> o.status.previous == o.status.version != "" && !o.status.rolledBack)
  }

  lemma KeptMove(kind: Kind, o: Object, seen: Seen, m: Move)
    requires Kept(o) && Due(kind, o, seen, m)
    ensures Kept(Execute(o, seen, m).o)
    ensures Execute(o, seen, m).outcome.Pass? ==> Execute(o, seen, m).o.status.phase in {NoPhase, Upgrading}
  {
  }

  lemma KeptTail(kind: Kind, o: Object, seen: Seen)
    requires Kept(o) && o.status.phase in {NoPhase, Upgrading}
    ensures Kept(TailTurn(kind, o, seen))
  {
  }

  lemma KeptStep(kind: Kind, o: Object, e: Event)
    requires Kept(o)
    ensures Kept(Apply(kind, o, e))
  {
    if e.Reconcile? {
      PlanIsDue(kind, Seed(o), e.seen);
      KeptMove(kind, Seed(o), e.seen, Plan(kind, Seed(o), e.seen));
      var t := UpgradeTurn(kind, o, e.seen);
      if t.outcome.Pass? { KeptTail(kind, t.o, e.seen); }
    }
  }

  /** In every run of either controller a rollback in progress leads back to the recorded version. */
  lemma {:induction false} RollbackLeadsBack(kind: Kind, o: Object, es: seq<Event>)
    requires Kept(o)
    ensures Kept(Run(kind, o, es))
    decreases |es|
  {
    if es != [] {
      KeptStep(kind, o, es[0]);
      RollbackLeadsBack(kind, Apply(kind, o, es[0]), es[1..]);
    }
  }
}
