/**
 The feature compatibility version of a sharded cluster across its upgrades
 (internal/controller/sharded_upgrade.go): what the committed FCV has to do with the recorded
 version, where a rollback lands, and which readiness a validation looks at.
 */
module UpgradeFcv {
  import opened Options
  import opened VersionText
  import opened Upgrade

  // ---------------------------------------------------------------- the sharded cluster's FCV

  ghost predicate Matches(fcv: string, version: string) {
    fcv == "" || fcv == FcvMajorMinor(version)
  }

  /** Status.Version is what a rollback returns to, and it is the version the FCV belongs to. */
  ghost predicate FcvInv(o: Object) {
    && (!o.status.phase.NoPhase? ==> o.status.previous == o.status.version != "")
    && (o.status.fcv == "" || o.status.fcv == o.committed)
    && Matches(o.status.fcv, o.status.version) && Matches(o.committed, o.status.version)
  }

  /** The FCV is raised to another major.minor and the status write that should record it is lost. */
  predicate CommitLost(o: Object, seen: Seen, m: Move) {
    m.Complete? && m.raise && !seen.write.ok && m.fcv != FcvMajorMinor(o.status.version)
  }

  predicate LosesCommit(o: Object, e: Event) {
    && e.Reconcile? && (NeedsSeed(o.status) ==> e.seen.seedOk)
    && CommitLost(Seed(o), e.seen, Plan(Sharded, Seed(o), e.seen))
  }

  lemma FcvMove(o: Object, seen: Seen, m: Move)
    requires FcvInv(o) && Due(Sharded, o, seen, m)
    ensures FcvInv(Execute(o, seen, m).o) <==> !CommitLost(o, seen, m)
  {
  }

  lemma FcvTail(o: Object, seen: Seen)
    requires FcvInv(o)
    ensures FcvInv(TailTurn(Sharded, o, seen))
  {
  }

  /** The FCV invariant is kept by every event of a sharded cluster except a lost commit. */
  lemma FcvStepIff(o: Object, e: Event)
    requires FcvInv(o)
    ensures FcvInv(Apply(Sharded, o, e)) <==> !LosesCommit(o, e)
  {
    if e.Reconcile? {
      var o1, seen := Seed(o), e.seen;
      assert FcvInv(o1);
      PlanIsDue(Sharded, o1, seen);
      FcvMove(o1, seen, Plan(Sharded, o1, seen));
      var t := UpgradeTurn(Sharded, o, seen);
      if FcvInv(t.o) { FcvTail(t.o, seen); }
    }
  }

  ghost predicate FcvAlways(o: Object, es: seq<Event>)
    decreases |es|
  {
    FcvInv(o) && (es == [] || FcvAlways(Apply(Sharded, o, es[0]), es[1..]))
  }

  ghost predicate NeverLosesCommit(o: Object, es: seq<Event>)
    decreases |es|
  {
    es == [] || (!LosesCommit(o, es[0]) && NeverLosesCommit(Apply(Sharded, o, es[0]), es[1..]))
  }

  /**
   Sharded runs with any spec edits: the committed FCV stays empty or the major.minor of
   Status.Version, and PreviousVersion stays Status.Version while a phase is active, exactly
   in the runs that lose no status write after raising the FCV.
   */
  lemma {:induction false} FcvTracksVersionIff(o: Object, es: seq<Event>)
    requires FcvInv(o)
    ensures FcvAlways(o, es) <==> NeverLosesCommit(o, es)
    decreases |es|
  {
    if es != [] {
      FcvStepIff(o, es[0]);
      if FcvInv(Apply(Sharded, o, es[0])) { FcvTracksVersionIff(Apply(Sharded, o, es[0]), es[1..]); }
    }
  }

  /**
   Weaker, but robust against lost writes: a committed FCV that is ahead of Status.Version
   belongs to a validation that has already passed and can only be completed.
   */
  ghost predicate RollbackInv(o: Object) {
    && (!o.status.phase.NoPhase? ==> o.status.previous == o.status.version != "" && !o.status.rolledBack)
    && Matches(o.status.fcv, o.status.version)
    && (FcvInv(o) || (o.status.phase.Validating? && AllReady(o.counters) && !Matches(o.committed, o.status.version)))
  }

  /** An edit has taken the spec back to Status.Version's major.minor after the FCV left it behind. */
  predicate Reverted(o: Object) {
    && o.status.phase.Validating? && FcvMajorMinor(o.spec.version) == FcvMajorMinor(o.status.version)
    && o.committed != "" && o.committed != FcvMajorMinor(o.status.version)
  }

  ghost predicate NeverReverted(o: Object, es: seq<Event>)
    decreases |es|
  {
    !Reverted(o) && (es == [] || NeverReverted(Apply(Sharded, o, es[0]), es[1..]))
  }

  lemma RollbackMove(o: Object, seen: Seen, m: Move)
    requires RollbackInv(o) && !Reverted(o) && Due(Sharded, o, seen, m)
    ensures var t := Execute(o, seen, m);
            RollbackInv(t.o) && (t.outcome.Pass? ==> FcvInv(t.o)) &&
            (m.RollBack? ==> Matches(t.o.committed, t.o.status.effective) || t.o == o)
  {
    if FcvInv(o) { FcvMove(o, seen, m); }
  }

  predicate FinishesRollback(o: Object, e: Event) {
    && e.Reconcile? && Plan(Sharded, Seed(o), e.seen).RollBack? && e.seen.write.ok
    && (NeedsSeed(o.status) ==> e.seen.seedOk)
  }

  ghost predicate RollbacksAreSafe(o: Object, es: seq<Event>)
    decreases |es|
  {
    es == [] ||
    var o' := Apply(Sharded, o, es[0]);
    && (FinishesRollback(o, es[0]) ==>
          o'.status.rolledBack && o'.status.effective == o.status.version && Matches(o'.committed, o'.status.effective))
    && RollbacksAreSafe(o', es[1..])
  }

  lemma SeedKeepsRollbackInv(o: Object)
    requires RollbackInv(o)
    ensures RollbackInv(Seed(o)) && (Reverted(Seed(o)) ==> Reverted(o))
  {
    assert FcvMajorMinor("") == "";
  }

  lemma RollbackTurn(o: Object, seen: Seen)
    requires RollbackInv(o) && !Reverted(o)
    ensures var t := UpgradeTurn(Sharded, o, seen); RollbackInv(t.o) && (t.outcome.Pass? ==> FcvInv(t.o))
    ensures FinishesRollback(o, Reconcile(seen)) ==>
              var t := UpgradeTurn(Sharded, o, seen);
              && t.outcome.Handled? && t.o.status.rolledBack && t.o.status.effective == o.status.version
              && Matches(t.o.committed, t.o.status.effective)
  {
    SeedKeepsRollbackInv(o);
    PlanIsDue(Sharded, Seed(o), seen);
    RollbackMove(Seed(o), seen, Plan(Sharded, Seed(o), seen));
  }

  lemma RollbackStep(o: Object, e: Event)
    requires RollbackInv(o) && !Reverted(o)
    ensures var o' := Apply(Sharded, o, e);
            RollbackInv(o') &&
            (FinishesRollback(o, e) ==>
               && o'.status.rolledBack && o'.status.effective == o.status.version
               && Matches(o'.committed, o'.status.effective))
  {
    if e.Reconcile? {
      RollbackTurn(o, e.seen);
      var t := UpgradeTurn(Sharded, o, e.seen);
      if t.outcome.Pass? { FcvTail(t.o, e.seen); }
    }
  }

  /**
   Every rollback of a sharded run, lost status writes included, lands on a binary whose
   major.minor is that of any FCV committed so far, as long as no edit takes the spec back
   behind an FCV that is already committed (module UpgradeWebhook proves that none can).
   */
  lemma {:induction false} RollbackMatchesFcv(o: Object, es: seq<Event>)
    requires RollbackInv(o) && NeverReverted(o, es)
    ensures RollbacksAreSafe(o, es)
    decreases |es|
  {
    if es != [] {
      RollbackStep(o, es[0]);
      RollbackMatchesFcv(Apply(Sharded, o, es[0]), es[1..]);
    }
  }

  /** Without lost commits the hypothesis takes care of itself. */
  lemma {:induction false} NoLostCommitNeverReverts(o: Object, es: seq<Event>)
    requires FcvInv(o) && NeverLosesCommit(o, es)
    ensures NeverReverted(o, es)
    decreases |es|
  {
    if es != [] {
      FcvStepIff(o, es[0]);
      NoLostCommitNeverReverts(Apply(Sharded, o, es[0]), es[1..]);
    }
  }

  lemma {:induction false} RunConcat(kind: Kind, o: Object, xs: seq<Event>, ys: seq<Event>)
    ensures Run(kind, o, xs + ys) == Run(kind, Run(kind, o, xs), ys)
    decreases |xs|
  {
    if xs == [] {
      assert xs + ys == ys;
    } else {
      assert (xs + ys)[0] == xs[0] && (xs + ys)[1..] == xs[1..] + ys;
      RunConcat(kind, Apply(kind, o, xs[0]), xs[1..], ys);
    }
  }

  lemma ThreeSteps(o: Object, e1: Event, e2: Event, e3: Event)
    ensures Run(Sharded, o, [e1, e2, e3]) == Apply(Sharded, Apply(Sharded, Apply(Sharded, o, e1), e2), e3)
  {
    assert [e1, e2, e3] == [e1] + ([e2] + ([e3] + []));
    RunCons(Sharded, o, e1, [e2] + ([e3] + []));
    RunCons(Sharded, Apply(Sharded, o, e1), e2, [e3] + []);
    RunCons(Sharded, Apply(Sharded, Apply(Sharded, o, e1), e2), e3, []);
  }

  /** An upgrade whose counters never fill up ends in a rollback to the version it started from. */
  lemma StuckUpgradeRollsBack(o: Object) returns (es: seq<Event>)
    requires o.status.phase.NoPhase? && !NeedsSeed(o.status) && o.status.observed != o.gen
    requires o.spec.version != "" && o.status.version != o.spec.version
    requires !o.spec.backupFirst && o.spec.rollbackOnFailure && !AllReady(o.counters)
    ensures var r := Run(Sharded, o, es);
            r.status.rolledBack && r.status.effective == o.status.version && r.committed == o.committed
  {
    var soon, late := Reconcile(Calm(0, o.counters)), Reconcile(Calm(Timeout(o.spec), o.counters));
    var o1 := o.(status := Begun(o.status, o.spec, o.spec.version, 0));
    assert Apply(Sharded, o, soon) == o1;
    var o2 := o1.(status := o1.status.(phase := Validating));
    assert Apply(Sharded, o1, soon) == o2;
    var o3 := o2.(status := o2.status.(phase := RollingBack));
    assert Verdict(Sharded, o2, late.seen).Fail?;
    assert Apply(Sharded, o2, late) == o3;
    ThreeSteps(o1, soon, late, late);
    RunCons(Sharded, o, soon, [soon, late, late]);
    es := [soon] + [soon, late, late];
  }

  /** Editing a validating cluster back to its recorded version and on to `c`. */
  lemma BackAndOn(o: Object, c: Spec, down: Counters) returns (es: seq<Event>)
    requires o.status.phase.Validating? && !NeedsSeed(o.status)
    ensures Run(Sharded, o, es) == o.(spec := c, gen := o.gen + 2, status := PhaseCleared(o.status), counters := down)
  {
    var back, calm := o.spec.(version := o.status.version), Reconcile(Calm(0, down));
    var o1 := o.(spec := back, gen := o.gen + 1);
    assert Apply(Sharded, o1, calm) == o1.(status := PhaseCleared(o1.status), counters := down);
    ThreeSteps(o, Edit(back), calm, Edit(c));
    es := [Edit(back), calm, Edit(c)];
  }

  /**
   Why the hypothesis: from every reverted state some run rolls back to a binary behind the
   committed FCV.
   */
  lemma RevertedStateIsUnsafe(o: Object, c: Spec, down: Counters) returns (es: seq<Event>)
    requires Reverted(o) && !NeedsSeed(o.status) && o.status.observed <= o.gen && !AllReady(down)
    requires c.version != "" && c.version != o.status.version && !c.backupFirst && c.rollbackOnFailure
    ensures var r := Run(Sharded, o, es);
            r.status.rolledBack && r.status.effective == o.status.version && !Matches(r.committed, r.status.effective)
  {
    var es1 := BackAndOn(o, c, down);
    var es2 := StuckUpgradeRollsBack(Run(Sharded, o, es1));
    RunConcat(Sharded, o, es1, es2);
    es := es1 + es2;
  }

  /** And such a state is one lost status write and one edit away from a passed validation. */
  lemma LostCommitCanRevert(o: Object) returns (es: seq<Event>)
    requires FcvInv(o) && o.status.phase.Validating? && o.status.start.Some?
    requires AllReady(o.counters) && !NeedsSeed(o.status)
    requires FcvMajorMinor(o.spec.version) != "" && FcvMajorMinor(o.spec.version) != FcvMajorMinor(o.status.version)
    ensures Reverted(Run(Sharded, o, es)) && Run(Sharded, o, es).status == o.status
  {
    var now := o.status.start.value + Interval(o.spec);
    var lost := Reconcile(Calm(now, o.counters).(write := Write(false, [])));
    var back := Edit(o.spec.(version := o.status.version));
    assert Verdict(Sharded, o, lost.seen).Commit?;
    assert Apply(Sharded, o, lost) == o.(committed := FcvMajorMinor(o.spec.version));
    RunCons(Sharded, o, lost, [back] + []);
    RunCons(Sharded, Apply(Sharded, o, lost), back, []);
    es := [lost] + ([back] + []);
  }

  /** A freshly created resource satisfies every invariant of this module. */
  lemma FreshSatisfiesInvariants(spec: Spec, counters: Counters)
    requires spec.version != ""
    ensures var o := Object(spec, 1, Status(NoPhase, "", "", "", "", 0, 0, None, false), map[], counters, "");
            Inv(o) && OnTarget(o) && FcvInv(o) && RollbackInv(o)
  {
  }

  // ---------------------------------------------------------------- stale readiness

  ghost predicate AlwaysActive(o: Object, es: seq<Event>)
    decreases |es|
  {
    !o.status.phase.NoPhase? && (es == [] || AlwaysActive(Apply(Sharded, o, es[0]), es[1..]))
  }

  lemma ActiveStepKeepsCounters(o: Object, e: Event)
    requires !o.status.phase.NoPhase? && !Apply(Sharded, o, e).status.phase.NoPhase?
    ensures Apply(Sharded, o, e).counters == o.counters
  {
    if e.Reconcile? {
      PlanIsDue(Sharded, Seed(o), e.seen);
      var t := UpgradeTurn(Sharded, o, e.seen);
      assert t.o.counters == o.counters;
      assert !t.o.status.phase.NoPhase?;
    }
  }

  /**
   No pass of an active upgrade reaches the closing status update, so the readiness counters a
   sharded validation judges are those recorded before the upgrade began.
   */
  lemma {:induction false} ValidationReadsOldCounters(o: Object, es: seq<Event>)
    requires AlwaysActive(o, es)
    ensures Run(Sharded, o, es).counters == o.counters
    decreases |es|
  {
    if es != [] {
      ActiveStepKeepsCounters(o, es[0]);
      ValidationReadsOldCounters(Apply(Sharded, o, es[0]), es[1..]);
    }
  }
}
