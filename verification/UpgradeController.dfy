/**
 The handlers of internal/controller/upgrade.go and internal/controller/sharded_upgrade.go as
 code that updates the resource in place, each proved to make the moves of module Upgrade.
 */
module UpgradeController {
  import opened Options
  import opened VersionText
  import opened Upgrade

  /** A custom resource whose status the handlers update in place. */
  class Cluster {
    const kind: Kind
    var spec: Spec
    var gen: nat
    var status: Status
    var backups: map<string, Backup>
    var counters: Counters
    var committed: string

    constructor (kind: Kind, spec: Spec, counters: Counters)
      ensures this.kind == kind
      ensures Value() == Object(spec, 1, Status(NoPhase, "", "", "", "", 0, 0, None, false), map[], counters, "")
    {
      this.kind, this.spec, this.gen, this.counters := kind, spec, 1, counters;
      status, backups, committed := Status(NoPhase, "", "", "", "", 0, 0, None, false), map[], "";
    }

    function Value(): Object
      reads this
    {
      Object(spec, gen, status, backups, counters, committed)
    }

    /** UpdateWithRetry up to its closure: the conflict, if any, has brought in the newest object. */
    method Refetch(w: Write) returns (ok: bool)
      modifies this`spec, this`gen
      ensures ok == w.ok
      ensures Value() == if ok then Newest(old(Value()), w) else old(Value())
    {
      if w.ok && w.edits != [] {
        spec, gen := w.edits[|w.edits| - 1], gen + |w.edits|;
      }
      ok := w.ok;
    }

    method ReconcileUpgradeBackup(seen: Seen) returns (out: Outcome)
      modifies this
      ensures Turn(Value(), out) == Execute(old(Value()), seen, BackupPlan(kind, old(Value()), seen))
    {
      var name := spec.version;
      if !seen.backupReadable || name !in backups {
        if !seen.backupReadable && kind.Sharded? { return Error; }
        if !seen.createOk || name in backups { return Error; }
        backups := backups[name := Running];
        return Handled;
      }
      match backups[name] {
        case Completed =>
          var ok := Refetch(seen.write);
          if !ok { return Error; }
          status := status.(phase := Upgrading);
          return Handled;
        case Broken =>
          var ok := Refetch(seen.write);
          if !ok { return Error; }
          status := status.(phase := NoPhase, start := None);
          return Handled;
        case Running =>
          return Handled;
      }
    }

    /** The loop over the recorded shard counters. */
    method AllComponentsReady() returns (r: bool)
      ensures r == AllReady(counters)
    {
      r := Full(counters.config) && Full(counters.mongos);
      for i := 0 to |counters.shards|
        invariant r == (&& Full(counters.config) && Full(counters.mongos)
                        && forall j | 0 <= j < i :: Full(counters.shards[j]))
      {
        if !Full(counters.shards[i]) { return false; }
      }
    }

    /** commitFCV, then the completing status write. */
    method CommitAndComplete(seen: Seen) returns (out: Outcome)
      modifies this
      ensures Turn(Value(), out) == Execute(old(Value()), seen, CommitPlan(old(Value()), seen))
    {
      var desired := spec.version;
      var target := FcvMajorMinor(desired);
      if target == "" { return Handled; }
      if status.fcv != target {
        if !seen.fcvOk { return Handled; }
        committed := target;
      }
      var ok := Refetch(seen.write);
      if !ok { return Error; }
      status := status.(version := desired, effective := desired, fcv := target, rolledBack := false);
      status := status.(phase := NoPhase, start := None, retries := 0, observed := gen);
      return Handled;
    }

    method UpgradeValidationFailed(seen: Seen) returns (out: Outcome)
      modifies this
      ensures Turn(Value(), out) ==
              Execute(old(Value()), seen, if old(spec).rollbackOnFailure then StartRollback else GiveUp)
    {
      var rollback := spec.rollbackOnFailure;
      var ok := Refetch(seen.write);
      if !ok { return Error; }
      if rollback {
        status := status.(phase := RollingBack);
      } else {
        status := status.(phase := NoPhase, start := None, observed := gen);
      }
      return Handled;
    }

    method ReconcileUpgradeValidation(seen: Seen) returns (out: Outcome)
      modifies this
      ensures Turn(Value(), out) == Execute(old(Value()), seen, ValidationPlan(kind, old(Value()), seen))
    {
      var interval := Interval(spec);
      var members := if spec.members < 1 then 1 else spec.members;
      var timeout := interval + members * MEMBER_BUDGET;
      if status.start.None? { return Handled; }
      var elapsed := seen.now - status.start.value;
      if kind.ReplicaSet? {
        if seen.rollout.Unreadable? { return Handled; }
        if seen.rollout.RolledOut? {
          if elapsed < interval { return Handled; }
          out := CommitAndComplete(seen);
          return;
        }
        if !seen.rollout.stuck && elapsed < timeout { return Handled; }
      } else {
        if elapsed < interval { return Handled; }
        var ready := AllComponentsReady();
        if ready {
          out := CommitAndComplete(seen);
          return;
        }
        if elapsed < timeout { return Handled; }
      }
      out := UpgradeValidationFailed(seen);
    }

    method ReconcileUpgradeRollback(seen: Seen) returns (out: Outcome)
      modifies this
      ensures Turn(Value(), out) == Execute(old(Value()), seen, RollbackPlan(old(Value())))
    {
      var previous, rollback := status.previous, spec.rollbackOnFailure;
      var ok := Refetch(seen.write);
      if !ok { return Error; }
      if previous == "" {
        status := status.(phase := NoPhase, start := None);
      } else if !rollback {
        status := status.(phase := NoPhase, start := None, observed := gen);
      } else {
        status := status.(effective := previous, rolledBack := true, phase := NoPhase, start := None);
        status := status.(retries := status.retries + 1, observed := gen);
      }
      return Handled;
    }

    method SeedVersions()
      modifies this`status
      ensures Value() == Seed(old(Value()))
    {
      if status.effective == "" { status := status.(effective := spec.version); }
      if status.version == "" { status := status.(version := status.effective); }
    }

    /** reconcileUpgrade and reconcileShardedUpgrade after the seed. */
    method Orchestrate(seen: Seen) returns (out: Outcome)
      modifies this
      ensures Turn(Value(), out) == Execute(old(Value()), seen, Plan(kind, old(Value()), seen))
    {
      var current, desired := status.version, spec.version;
      if current == "" || current == desired {
        if status.phase == NoPhase { return Pass; }
        var ok := Refetch(seen.write);
        if !ok { return Error; }
        status := status.(phase := NoPhase, start := None);
        return Pass;
      }
      if status.phase == NoPhase && status.observed == gen && status.observed != 0 { return Pass; }
      match status.phase {
        case NoPhase =>
          var ok := Refetch(seen.write);
          if !ok { return Error; }
          status := status.(previous := current, effective := desired, rolledBack := false, start := Some(seen.now));
          status := status.(phase := if spec.backupFirst then BackingUp else Upgrading);
          return Handled;
        case BackingUp => out := ReconcileUpgradeBackup(seen);
        case Upgrading => return Pass;
        case Validating => out := ReconcileUpgradeValidation(seen);
        case RollingBack => out := ReconcileUpgradeRollback(seen);
      }
    }

    method ReconcileUpgrade(seen: Seen) returns (out: Outcome)
      modifies this
      ensures Turn(Value(), out) == UpgradeTurn(kind, old(Value()), seen)
    {
      if status.effective == "" || status.version == "" {
        if !seen.seedOk { return Error; }
        SeedVersions();
      }
      out := Orchestrate(seen);
    }

    /** What follows the workload: the move to Validating, or the closing status update. */
    method FinishPass(seen: Seen)
      modifies this
      ensures Value() == TailTurn(kind, old(Value()), seen)
    {
      if status.phase == Upgrading {
        if kind.Sharded? && !seen.up { return; }
        var ok := Refetch(seen.tail);
        if !ok { return; }
        status := status.(phase := Validating);
        if kind.ReplicaSet? || status.start.None? { status := status.(start := Some(seen.now)); }
      } else if seen.finished {
        var ok := Refetch(seen.tail);
        if !ok { return; }
        if kind.ReplicaSet? {
          status := status.(version := spec.version);
        } else if seen.tail.edits == [] {
          counters := seen.counters;
        }
      }
    }

    /** The reconcile steps from the upgrade turn to the closing status update. */
    method ReconcilePass(seen: Seen) returns (applied: Option<string>)
      modifies this
      ensures Value() == ReconcileTurn(kind, old(Value()), seen)
      ensures applied == Applied(kind, old(Value()), seen)
    {
      applied := None;
      var out := ReconcileUpgrade(seen);
      if out == Pass && seen.applyOk {
        applied := Some(if status.effective == "" then spec.version else status.effective);
        FinishPass(seen);
      }
    }
  }
}
