/**
 Termination of the replica-set upgrade (internal/controller/upgrade.go) at a fixed generation,
 by a measure of the phase and, in Validating, of the time left.
 */
module UpgradeTermination {
  import opened Options
  import opened VersionText
  import opened Upgrade

  /** A pass in which every API, status and FCV call succeeds and no edit lands. */
  predicate GoodPass(seen: Seen, clock: Time) {
    && seen.now > clock && seen.seedOk && seen.write == Write(true, []) && seen.tail == Write(true, [])
    && seen.backupReadable && !seen.rollout.Unreadable? && seen.fcvOk && seen.applyOk
  }

  /** A pending replica-set upgrade whose backup, if it needs one, is there. */
  ghost predicate Pending(o: Object, clock: Time) {
    && Inv(o) && !NeedsSeed(o.status) && o.status.version != o.spec.version && o.status.observed != o.gen
    && FcvMajorMinor(o.spec.version) != ""
    && (o.spec.backupFirst || o.status.phase.BackingUp? ==> BackedUp(o))
    && (o.status.phase.Validating? ==> o.status.start.value <= clock)
  }

  predicate Terminal(o: Object) {
    o.status.phase.NoPhase? && o.status.observed == o.gen
  }

  function AtLeastZero(t: int): nat {
    if t < 0 then 0 else t
  }

  /** Passes still needed: the phases ahead, and in Validating the time left to the timeout. */
  function Budget(o: Object, clock: Time): nat {
    var full := AtLeastZero(Timeout(o.spec));
    match o.status.phase
    case NoPhase => full + 5
    case BackingUp => full + 4
    case Upgrading => full + 3
    case Validating =>
      2 + (if o.status.start.None? then 0 else AtLeastZero(o.status.start.value + Timeout(o.spec) - clock))
    case RollingBack => 1
  }

  lemma ValidationShrinks(o: Object, seen: Seen, clock: Time)
    requires Pending(o, clock) && GoodPass(seen, clock) && o.status.phase.Validating?
    ensures ValidationPlan(ReplicaSet, o, seen) == Stay(Handled) ==> Budget(o, seen.now) < Budget(o, clock)
  {
    assert Interval(o.spec) < Timeout(o.spec);
  }

  lemma MoveShrinksBudget(o: Object, seen: Seen, clock: Time, m: Move)
    requires Pending(o, clock) && GoodPass(seen, clock) && Due(ReplicaSet, o, seen, m)
    requires m == Plan(ReplicaSet, o, seen)
    ensures var t := Execute(o, seen, m);
            || (t.outcome.Handled? && Terminal(t.o))
            || (t.outcome.Handled? && Pending(t.o, seen.now) && Budget(t.o, seen.now) < Budget(o, clock))
            || (t.outcome.Pass? && t.o == o && o.status.phase.Upgrading?)
  {
    if o.status.phase.Validating? { ValidationShrinks(o, seen, clock); }
  }

  lemma RolloutShrinksBudget(o: Object, seen: Seen, clock: Time)
    requires Pending(o, clock) && GoodPass(seen, clock) && o.status.phase.Upgrading?
    ensures var o' := TailTurn(ReplicaSet, o, seen); Pending(o', seen.now) && Budget(o', seen.now) < Budget(o, clock)
  {
  }

  lemma PassShrinksBudget(o: Object, seen: Seen, clock: Time)
    requires Pending(o, clock) && GoodPass(seen, clock)
    ensures var o' := ReconcileTurn(ReplicaSet, o, seen);
            Terminal(o') || (Pending(o', seen.now) && Budget(o', seen.now) < Budget(o, clock))
  {
    PlanIsDue(ReplicaSet, o, seen);
    MoveShrinksBudget(o, seen, clock, Plan(ReplicaSet, o, seen));
    if o.status.phase.Upgrading? { RolloutShrinksBudget(o, seen, clock); }
  }

  ghost predicate GoodPasses(seens: seq<Seen>, clock: Time)
    decreases |seens|
  {
    seens == [] || (GoodPass(seens[0], clock) && GoodPasses(seens[1..], seens[0].now))
  }

  function Passes(o: Object, seens: seq<Seen>): Object
    decreases |seens|
  {
    if seens == [] then o else Passes(ReconcileTurn(ReplicaSet, o, seens[0]), seens[1..])
  }

  lemma TerminalIsStable(o: Object, seen: Seen, clock: Time)
    requires Inv(o) && Terminal(o) && GoodPass(seen, clock)
    ensures Inv(ReconcileTurn(ReplicaSet, o, seen)) && Terminal(ReconcileTurn(ReplicaSet, o, seen))
    ensures ReconcileTurn(ReplicaSet, o, seen).gen == o.gen
  {
    assert Plan(ReplicaSet, Seed(o), seen) == Stay(Pass);
  }

  lemma {:induction false} StaysTerminal(o: Object, seens: seq<Seen>, clock: Time)
    requires Inv(o) && Terminal(o) && GoodPasses(seens, clock)
    ensures Terminal(Passes(o, seens)) && Passes(o, seens).gen == o.gen
    decreases |seens|
  {
    if seens != [] {
      TerminalIsStable(o, seens[0], clock);
      StaysTerminal(ReconcileTurn(ReplicaSet, o, seens[0]), seens[1..], seens[0].now);
    }
  }

  lemma MoveKeepsGeneration(o: Object, seen: Seen, m: Move)
    requires seen.write == Write(true, [])
    ensures Execute(o, seen, m).o.gen == o.gen
  {
  }

  lemma PassKeepsGeneration(o: Object, seen: Seen, clock: Time)
    requires Inv(o) && GoodPass(seen, clock)
    ensures Inv(ReconcileTurn(ReplicaSet, o, seen)) && ReconcileTurn(ReplicaSet, o, seen).gen == o.gen
  {
    assert Apply(ReplicaSet, o, Reconcile(seen)) == ReconcileTurn(ReplicaSet, o, seen);
    StepMovesForward(ReplicaSet, o, Reconcile(seen));
    MoveKeepsGeneration(Seed(o), seen, Plan(ReplicaSet, Seed(o), seen));
    var t := UpgradeTurn(ReplicaSet, o, seen);
    assert TailTurn(ReplicaSet, t.o, seen).gen == t.o.gen;
  }

  /**
   At a fixed generation the replica-set upgrade terminates: whatever the rollout does, after
   `Budget` passes with increasing clock readings the phase is empty with the generation
   recorded, and it stays so.
   */
  lemma {:induction false} UpgradeTerminates(o: Object, seens: seq<Seen>, clock: Time)
    requires Pending(o, clock) && GoodPasses(seens, clock) && |seens| >= Budget(o, clock)
    ensures Terminal(Passes(o, seens)) && Passes(o, seens).gen == o.gen
    decreases |seens|
  {
    PassShrinksBudget(o, seens[0], clock);
    PassKeepsGeneration(o, seens[0], clock);
    var o' := ReconcileTurn(ReplicaSet, o, seens[0]);
    if Terminal(o') {
      StaysTerminal(o', seens[1..], seens[0].now);
    } else {
      UpgradeTerminates(o', seens[1..], seens[0].now);
    }
  }
}
