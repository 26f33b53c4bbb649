/**
 Which generations can still roll out (internal/controller/upgrade.go and
 internal/controller/sharded_upgrade.go): the exact condition, and what it means for a spec edit.

 The condition is proved for more states than current reads can reach: a phase may be under way
 although its generation is already recorded, as a stale status write can leave it.
 */
module UpgradeGenerations {
  import opened Options
  import opened Upgrade

  ghost predicate Sane(o: Object) {
    && o.gen >= 1 && o.spec.version != ""
    && (!o.status.phase.NoPhase? ==> o.status.previous != "")
  }

  /** The event enters Upgrading; `own`: to roll out the version its own generation asks for. */
  predicate RollsOut(kind: Kind, o: Object, e: Event, own: bool) {
    var o' := Apply(kind, o, e);
    Enters(kind, o, e, Upgrading) && (own ==> o'.status.effective == o'.spec.version)
  }

  /** How often a run does so at generation `g`. */
  function Rollouts(kind: Kind, o: Object, es: seq<Event>, own: bool, g: nat): nat
    decreases |es|
  {
    if es == [] then 0
    else
      var o' := Apply(kind, o, es[0]);
      (if RollsOut(kind, o, es[0], own) && o'.gen == g then 1 else 0) + Rollouts(kind, o', es[1..], own, g)
  }

  /** Some continuation, with any edits, failures and observations, does so at the current generation. */
  ghost predicate CanRollOut(kind: Kind, o: Object, own: bool) {
    exists es: seq<Event> :: ValidRun(es) && Rollouts(kind, o, es, own, o.gen) >= 1
  }

  /**
   Another version than the recorded one is asked for, and nothing is under way and nothing
   recorded, or a backup is (for the generation's own version: one that can still be retried,
   or was made for that version).
   */
  predicate Open(o: Object, own: bool) {
    var st := Seed(o).status;
    && st.version != o.spec.version
    && match o.status.phase
       case NoPhase => st.observed != o.gen
       case BackingUp => own ==> st.observed != o.gen || st.effective == o.spec.version
       case _ => false
  }

  // ---------------------------------------------------------------- closed for good

  lemma MoveKeepsSane(kind: Kind, o: Object, seen: Seen, m: Move)
    requires Sane(o) && ValidEvent(Reconcile(seen)) && Due(kind, o, seen, m)
    ensures Sane(Execute(o, seen, m).o) && Execute(o, seen, m).o.gen >= o.gen
    ensures Execute(o, seen, m).outcome.Pass? ==> Execute(o, seen, m).o.status.phase in {NoPhase, Upgrading}
  {
  }

  lemma TailKeepsSane(kind: Kind, o: Object, seen: Seen)
    requires Sane(o) && ValidEvent(Reconcile(seen))
    ensures Sane(TailTurn(kind, o, seen)) && TailTurn(kind, o, seen).gen >= o.gen
  {
  }

  lemma TurnKeepsSane(kind: Kind, o: Object, seen: Seen, t: Turn)
    requires Sane(o) && ValidEvent(Reconcile(seen)) && t == UpgradeTurn(kind, o, seen)
    ensures Sane(t.o) && t.o.gen >= o.gen && (t.outcome.Pass? ==> t.o.status.phase in {NoPhase, Upgrading})
  {
    PlanIsDue(kind, Seed(o), seen);
    MoveKeepsSane(kind, Seed(o), seen, Plan(kind, Seed(o), seen));
  }

  lemma StepKeepsSane(kind: Kind, o: Object, e: Event)
    requires Sane(o) && ValidEvent(e)
    ensures Sane(Apply(kind, o, e)) && Apply(kind, o, e).gen >= o.gen
  {
    if e.Reconcile? {
      var t := UpgradeTurn(kind, o, e.seen);
      TurnKeepsSane(kind, o, e.seen, t);
      TailKeepsSane(kind, t.o, e.seen);
    }
  }

  lemma ClosedMove(kind: Kind, o: Object, seen: Seen, m: Move, own: bool)
    requires Sane(o) && !NeedsSeed(o.status) && !Open(o, own) && Due(kind, o, seen, m)
    ensures var o' := Execute(o, seen, m).o;
            o'.gen == o.gen ==>
              && !NeedsSeed(o'.status) && !Open(o', own)
              && (o'.status.phase.Upgrading? && !o.status.phase.Upgrading? ==>
                    own && o'.status.effective != o'.spec.version)
  {
  }

  lemma ClosedTurn(kind: Kind, o: Object, seen: Seen, t: Turn, own: bool)
    requires Sane(o) && !Open(o, own) && t == UpgradeTurn(kind, o, seen)
    ensures t.o.gen == o.gen ==>
              && !Open(t.o, own) && (!t.outcome.Error? ==> !NeedsSeed(t.o.status))
              && (t.o.status.phase.Upgrading? && !o.status.phase.Upgrading? ==>
                    own && t.o.status.effective != t.o.spec.version)
  {
    var o1 := Seed(o);
    assert Sane(o1) && !Open(o1, own) && !NeedsSeed(o1.status);
    PlanIsDue(kind, o1, seen);
    ClosedMove(kind, o1, seen, Plan(kind, o1, seen), own);
  }

  lemma ClosedTail(kind: Kind, o: Object, seen: Seen, own: bool)
    requires Sane(o) && !NeedsSeed(o.status) && !Open(o, own)
    ensures var o' := TailTurn(kind, o, seen);
            o'.gen == o.gen ==> !Open(o', own) && (o'.status.phase.Upgrading? ==> o' == o)
  {
  }

  lemma ClosedPass(kind: Kind, o: Object, seen: Seen, own: bool)
    requires Sane(o) && !Open(o, own) && ValidEvent(Reconcile(seen)) && ReconcileTurn(kind, o, seen).gen == o.gen
    ensures !Open(ReconcileTurn(kind, o, seen), own) && !RollsOut(kind, o, Reconcile(seen), own)
  {
    var t := UpgradeTurn(kind, o, seen);
    TurnKeepsSane(kind, o, seen, t);
    if t.outcome.Pass? && seen.applyOk {
      TailKeepsSane(kind, t.o, seen);
      ClosedTurn(kind, o, seen, t, own);
      ClosedTail(kind, t.o, seen, own);
    } else {
      ClosedTurn(kind, o, seen, t, own);
    }
  }

  lemma ClosedStep(kind: Kind, o: Object, e: Event, own: bool)
    requires Sane(o) && !Open(o, own) && ValidEvent(e) && Apply(kind, o, e).gen == o.gen
    ensures !Open(Apply(kind, o, e), own) && !RollsOut(kind, o, e, own)
  {
    if e.Reconcile? { ClosedPass(kind, o, e.seen, own); }
  }

  /** Nothing happens any more at a generation that is over, or closed. */
  lemma {:induction false} ClosedRun(kind: Kind, o: Object, es: seq<Event>, own: bool, g: nat)
    requires Sane(o) && ValidRun(es) && (g < o.gen || (g == o.gen && !Open(o, own)))
    ensures Rollouts(kind, o, es, own, g) == 0
    decreases |es|
  {
    if es != [] {
      assert ValidEvent(es[0]);
      StepKeepsSane(kind, o, es[0]);
      if Apply(kind, o, es[0]).gen == o.gen == g { ClosedStep(kind, o, es[0], own); }
      ClosedRun(kind, Apply(kind, o, es[0]), es[1..], own, g);
    }
  }

  // ---------------------------------------------------------------- still open

  lemma RolloutsCons(kind: Kind, o: Object, e: Event, rest: seq<Event>, own: bool, g: nat)
    ensures Rollouts(kind, o, [e] + rest, own, g) ==
            (if RollsOut(kind, o, e, own) && Apply(kind, o, e).gen == g then 1 else 0)
            + Rollouts(kind, Apply(kind, o, e), rest, own, g)
  {
    assert ([e] + rest)[0] == e && ([e] + rest)[1..] == rest;
  }

  /** From a completed backup, one pass rolls out what the backup was made for. */
  lemma BackedUpRollsOut(kind: Kind, o: Object, own: bool) returns (es: seq<Event>)
    requires Open(o, own) && o.status.phase.BackingUp? && BackedUp(o) && o.spec.version != ""
    requires own ==> Seed(o).status.effective == o.spec.version
    ensures ValidRun(es) && Rollouts(kind, o, es, own, o.gen) >= 1
  {
    var calm := Reconcile(Calm(0, o.counters));
    assert Apply(kind, o, calm) == Seed(o).(status := Seed(o).status.(phase := Upgrading));
    RolloutsCons(kind, o, calm, [], own, o.gen);
    es := [calm] + [];
  }

  /** What a run ends with counts for the whole run. */
  lemma {:induction false} LaterRollouts(kind: Kind, o: Object, xs: seq<Event>, ys: seq<Event>, own: bool, g: nat)
    ensures Rollouts(kind, o, xs + ys, own, g) >= Rollouts(kind, Run(kind, o, xs), ys, own, g)
    decreases |xs|
  {
    if xs == [] {
      assert xs + ys == ys;
    } else {
      assert (xs + ys)[0] == xs[0] && (xs + ys)[1..] == xs[1..] + ys;
      LaterRollouts(kind, Apply(kind, o, xs[0]), xs[1..], ys, own, g);
    }
  }

  /** The backup for the spec's version gets into the given state. */
  lemma BackupReaches(kind: Kind, o: Object, state: Backup) returns (es: seq<Event>, o': Object)
    requires o.status.phase.BackingUp? && Seed(o).status.version != o.spec.version && o.spec.version != ""
    ensures ValidRun(es) && o' == Run(kind, o, es)
    ensures o'.spec.version in o'.backups && o'.backups[o'.spec.version] == state
    ensures o'.spec == o.spec && o'.gen == o.gen && o'.status.phase.BackingUp? && Seed(o').status == Seed(o).status
  {
    var calm, moves := Reconcile(Calm(0, o.counters)), BackupMoves(o.spec.version, state);
    if o.spec.version in o.backups {
      es, o' := [moves] + [], Apply(kind, o, moves);
      RunCons(kind, o, moves, []);
    } else {
      var o1 := Seed(o).(backups := o.backups[o.spec.version := Running]);
      assert Apply(kind, o, calm) == o1;
      es, o' := [calm] + ([moves] + []), Apply(kind, o1, moves);
      RunCons(kind, o, calm, [moves] + []);
      RunCons(kind, o1, moves, []);
    }
  }

  /** A backup made for the generation's own version. */
  lemma BackingUpRollsOut(kind: Kind, o: Object, own: bool) returns (es: seq<Event>)
    requires Open(o, own) && o.status.phase.BackingUp? && o.spec.version != ""
    requires own ==> Seed(o).status.effective == o.spec.version
    ensures ValidRun(es) && Rollouts(kind, o, es, own, o.gen) >= 1
  {
    var pre, o' := BackupReaches(kind, o, Completed);
    var rest := BackedUpRollsOut(kind, o', own);
    LaterRollouts(kind, o, pre, rest, own, o.gen);
    es := pre + rest;
  }

  lemma IdleRollsOut(kind: Kind, o: Object, own: bool) returns (es: seq<Event>)
    requires Open(o, own) && o.status.phase.NoPhase? && o.spec.version != "" && o.gen >= 1
    ensures ValidRun(es) && Rollouts(kind, o, es, own, o.gen) >= 1
  {
    var calm := Reconcile(Calm(0, o.counters));
    var o1 := Seed(o).(status := Begun(Seed(o).status, o.spec, o.spec.version, 0));
    assert Apply(kind, o, calm) == o1;
    var rest := [];
    if o.spec.backupFirst { rest := BackingUpRollsOut(kind, o1, own); }
    RolloutsCons(kind, o, calm, rest, own, o.gen);
    es := [calm] + rest;
  }

  /** A pass that finds the backup broken clears the phase, and the upgrade begins anew. */
  lemma BrokenRollsOut(kind: Kind, o: Object) returns (es: seq<Event>)
    requires o.status.phase.BackingUp? && Seed(o).status.version != o.spec.version && o.status.observed != o.gen
    requires o.spec.version != "" && o.gen >= 1
    requires o.spec.version in o.backups && o.backups[o.spec.version].Broken?
    ensures ValidRun(es) && Rollouts(kind, o, es, true, o.gen) >= 1
  {
    var calm := Reconcile(Calm(0, o.counters));
    var o1 := Seed(o).(status := PhaseCleared(Seed(o).status));
    assert Apply(kind, o, calm) == o1;
    var rest := IdleRollsOut(kind, o1, true);
    RolloutsCons(kind, o, calm, rest, true, o.gen);
    es := [calm] + rest;
  }

  /** A backup made for an earlier target is let fail. */
  lemma RetriedRollsOut(kind: Kind, o: Object) returns (es: seq<Event>)
    requires o.status.phase.BackingUp? && Seed(o).status.version != o.spec.version && o.status.observed != o.gen
    requires o.spec.version != "" && o.gen >= 1
    ensures ValidRun(es) && Rollouts(kind, o, es, true, o.gen) >= 1
  {
    var pre, o' := BackupReaches(kind, o, Broken);
    assert Seed(o').status.observed == o'.status.observed && Seed(o).status.observed == o.status.observed;
    var rest := BrokenRollsOut(kind, o');
    LaterRollouts(kind, o, pre, rest, true, o.gen);
    es := pre + rest;
  }

  lemma OpenRollsOut(kind: Kind, o: Object, own: bool) returns (es: seq<Event>)
    requires Open(o, own) && o.spec.version != "" && o.gen >= 1
    ensures ValidRun(es) && Rollouts(kind, o, es, own, o.gen) >= 1
  {
    if o.status.phase.NoPhase? {
      es := IdleRollsOut(kind, o, own);
    } else if own && Seed(o).status.effective != o.spec.version {
      es := RetriedRollsOut(kind, o);
    } else {
      es := BackingUpRollsOut(kind, o, own);
    }
  }

  // ---------------------------------------------------------------- the exact condition

  /** Exactly when the current generation can still enter Upgrading, with its own version or any. */
  lemma CanRollOutIffOpen(kind: Kind, o: Object, own: bool)
    requires Sane(o)
    ensures CanRollOut(kind, o, own) <==> Open(o, own)
  {
    if Open(o, own) {
      var es := OpenRollsOut(kind, o, own);
    } else {
      forall es: seq<Event> | ValidRun(es) ensures Rollouts(kind, o, es, own, o.gen) == 0 {
        ClosedRun(kind, o, es, own, o.gen);
      }
    }
  }

  /** The version a pass would compare the spec with. */
  function Recorded(o: Object, spec: Spec): string {
    Seeded(o.status, spec.version).version
  }

  /**
   An edit can ever have its own version rolled out exactly when it lands before the rollout
   and names another version than the recorded one.
   */
  lemma EditRollsOutIff(kind: Kind, o: Object, spec: Spec)
    requires Inv(o) && spec.version != ""
    ensures CanRollOut(kind, Apply(kind, o, Edit(spec)), true) <==>
            o.status.phase in {NoPhase, BackingUp} && Recorded(o, spec) != spec.version
  {
    CanRollOutIffOpen(kind, Apply(kind, o, Edit(spec)), true);
  }

  /**
   It need not: after an edit during the backup, a completed backup of the new version lets
   the version from before the edit roll out.
   */
  lemma EditDuringBackupDeploysOld(kind: Kind, o: Object, spec: Spec, seen: Seen)
    requires Inv(o) && !NeedsSeed(o.status) && o.status.phase.BackingUp? && spec.version != ""
    requires spec.version !in {o.status.version, o.status.effective}
    requires spec.version in o.backups && o.backups[spec.version].Completed?
    requires seen.backupReadable && seen.write == Write(true, []) && seen.applyOk
    ensures var o1 := ReconcileTurn(kind, Apply(kind, o, Edit(spec)), seen);
            && o1.status.phase.Upgrading? && o1.status.effective == o.status.effective != o1.spec.version
            && Applied(kind, o1, seen) == Some(o.status.effective)
  {
  }

  /**
   The price of recording `mdb.Generation` inside the retried closure: an edit that lands
   before a terminal status write is booked as already tried, and its generation never rolls
   out anything.
   */
  lemma EditDuringTerminalWriteIsSwallowed(kind: Kind, o: Object, seen: Seen)
    requires Inv(o) && ValidEvent(Reconcile(seen)) && !NeedsSeed(o.status)
    requires Ends(Plan(kind, o, seen)) && seen.write.ok && seen.write.edits != []
    ensures var o' := ReconcileTurn(kind, o, seen);
            && o'.gen == o.gen + |seen.write.edits| && o'.spec == seen.write.edits[|seen.write.edits| - 1]
            && !CanRollOut(kind, o', false)
  {
    var m := Plan(kind, o, seen);
    PlanIsDue(kind, o, seen);
    MoveForward(kind, o, seen, m);
    var o' := Execute(o, seen, m).o;
    assert ReconcileTurn(kind, o, seen) == o';
    CanRollOutIffOpen(kind, o', false);
  }

  /** So is an edit that lands at any time in Upgrading, Validating or RollingBack. */
  lemma EditDuringRolloutIsSwallowed(kind: Kind, o: Object, spec: Spec)
    requires Inv(o) && spec.version != "" && o.status.phase in {Upgrading, Validating, RollingBack}
    ensures !CanRollOut(kind, Apply(kind, o, Edit(spec)), false)
  {
    CanRollOutIffOpen(kind, Apply(kind, o, Edit(spec)), false);
  }
}
