/**
 The upgrade state machine that internal/controller/upgrade.go runs for a replica set and
 internal/controller/sharded_upgrade.go runs for a sharded cluster.  The two files follow the
 same script; `Kind` marks the places where they part.  What a reconcile pass observes (clock,
 backup, rollout, failing calls, a spec edit landing before a status write) is its input.
 */
module Upgrade {
  import opened Options
  import opened VersionText

  datatype Kind = ReplicaSet | Sharded

  datatype Phase = NoPhase | BackingUp | Upgrading | Validating | RollingBack

  /** Seconds. */
  type Time = int

  const DEFAULT_INTERVAL: Time := 60
  const MEMBER_BUDGET: Time := 180

  /**
   The part of the spec the upgrade reads.  A missing strategy is both flags off and no
   interval; an interval that does not parse is no interval; `members` is the member count of a
   replica set, or config members plus shards times members per shard.
   */
  datatype Spec = Spec(version: string, backupFirst: bool, rollbackOnFailure: bool,
                       interval: Option<Time>, members: int)

  datatype Status = Status(phase: Phase, version: string, effective: string, previous: string,
                           fcv: string, observed: nat, retries: nat, start: Option<Time>, rolledBack: bool)

  datatype Backup = Running | Completed | Broken

  datatype Count = Count(ready: int, total: int)

  /** Status.ConfigServer, Status.Mongos and Status.Shards of a sharded cluster. */
  datatype Counters = Counters(config: Count, mongos: Count, shards: seq<Count>)

  /** A custom resource on the API server, with the backups and the FCV it has brought about. */
  datatype Object = Object(spec: Spec, gen: nat, status: Status, backups: map<string, Backup>,
                           counters: Counters, committed: string)

  datatype Rollout = Unreadable | RolledOut | Rolling(stuck: bool)

  /** A status write: whether it gets through, and the spec edits it is re-applied on top of. */
  datatype Write = Write(ok: bool, edits: seq<Spec>)

  datatype Seen = Seen(now: Time, seedOk: bool, write: Write, backupReadable: bool, createOk: bool,
                       rollout: Rollout, fcvOk: bool, applyOk: bool, up: bool, finished: bool,
                       tail: Write, counters: Counters)

  datatype Outcome = Handled | Pass | Error

  datatype Turn = Turn(o: Object, outcome: Outcome)

  /** What the upgrade step of a pass decides to do. */
  datatype Move =
    | Stay(outcome: Outcome)               // nothing is written
    | CreateBackup
    | Clear(outcome: Outcome)
    | Begin
    | Roll                                 // the backup is there: roll out
    | Complete(fcv: string, raise: bool)   // raise: setFeatureCompatibilityVersion was called
    | StartRollback
    | GiveUp
    | RollBack

  datatype Event = Edit(spec: Spec) | BackupMoves(version: string, state: Backup) | Reconcile(seen: Seen)

  // ---------------------------------------------------------------- the status closures

  predicate NeedsSeed(st: Status) {
    st.effective == "" || st.version == ""
  }

  function Seeded(st: Status, desired: string): Status {
    var effective := if st.effective == "" then desired else st.effective;
    st.(effective := effective, version := if st.version == "" then effective else st.version)
  }

  function PhaseCleared(st: Status): Status {
    st.(phase := NoPhase, start := None)
  }

  function Begun(st: Status, spec: Spec, desired: string, now: Time): Status {
    st.(previous := st.version, effective := desired, rolledBack := false, start := Some(now),
        phase := if spec.backupFirst then BackingUp else Upgrading)
  }

  function Finished(st: Status, desired: string, fcv: string, gen: nat): Status {
    st.(version := desired, effective := desired, fcv := fcv, rolledBack := false,
        phase := NoPhase, start := None, retries := 0, observed := gen)
  }

  function GivenUp(st: Status, gen: nat): Status {
    st.(phase := NoPhase, start := None, observed := gen)
  }

  function RolledBack(st: Status, gen: nat): Status {
    st.(effective := st.previous, rolledBack := true, phase := NoPhase, start := None,
        retries := st.retries + 1, observed := gen)
  }

  // ---------------------------------------------------------------- reading the spec

  /** parseValidationInterval. */
  function Interval(spec: Spec): Time {
    if spec.interval.None? then DEFAULT_INTERVAL else spec.interval.value
  }

  function Timeout(spec: Spec): Time {
    Interval(spec) + (if spec.members < 1 then 1 else spec.members) * MEMBER_BUDGET
  }

  predicate Full(c: Count) {
    c.ready >= c.total
  }

  predicate AllReady(c: Counters) {
    Full(c.config) && Full(c.mongos) && forall i | 0 <= i < |c.shards| :: Full(c.shards[i])
  }

  /** The version the builders put into the workload. */
  function Image(o: Object): string {
    if o.status.effective == "" then o.spec.version else o.status.effective
  }

  // ---------------------------------------------------------------- one reconcile pass

  /** The object as the retried write finds it. */
  function Newest(o: Object, w: Write): Object {
    if w.edits == [] then o else o.(spec := w.edits[|w.edits| - 1], gen := o.gen + |w.edits|)
  }

  /** A status write: the closure on top of the newest object, or an error and no change. */
  function Put(o: Object, w: Write, st: Status, done: Outcome): Turn {
    if w.ok then Turn(Newest(o, w).(status := st), done) else Turn(o, Error)
  }

  function BackupPlan(kind: Kind, o: Object, seen: Seen): Move {
    var name := o.spec.version;
    if !seen.backupReadable && kind.Sharded? then Stay(Error)
    else if !seen.backupReadable || name !in o.backups then
      // a replica set takes any failed Get for "not found"; Create then finds what is there
      if seen.createOk && name !in o.backups then CreateBackup else Stay(Error)
    else
      match o.backups[name]
      case Completed => Roll
      case Broken => Clear(Handled)
      case Running => Stay(Handled)
  }

  datatype Check = Wait | Commit | Fail

  /** What a validation pass concludes from the clock and the rollout, or the recorded counters. */
  function Verdict(kind: Kind, o: Object, seen: Seen): Check {
    if o.status.start.None? then Wait
    else
      var elapsed := seen.now - o.status.start.value;
      match kind
      case ReplicaSet =>
        (match seen.rollout
         case Unreadable => Wait
         case RolledOut => if elapsed < Interval(o.spec) then Wait else Commit
         case Rolling(stuck) => if stuck then Fail else if elapsed < Timeout(o.spec) then Wait else Fail)
      case Sharded =>
        if elapsed < Interval(o.spec) then Wait
        else if AllReady(o.counters) then Commit
        else if elapsed < Timeout(o.spec) then Wait
        else Fail
  }

  /** commitFCV: nothing to derive it from, already recorded, refused by the server, or raised. */
  function CommitPlan(o: Object, seen: Seen): Move {
    var fcv := FcvMajorMinor(o.spec.version);
    if fcv == "" then Stay(Handled)
    else if o.status.fcv == fcv then Complete(fcv, false)
    else if seen.fcvOk then Complete(fcv, true)
    else Stay(Handled)
  }

  function ValidationPlan(kind: Kind, o: Object, seen: Seen): Move {
    match Verdict(kind, o, seen)
    case Wait => Stay(Handled)
    case Commit => CommitPlan(o, seen)
    case Fail => if o.spec.rollbackOnFailure then StartRollback else GiveUp
  }

  function RollbackPlan(o: Object): Move {
    if o.status.previous == "" then Clear(Handled)
    else if o.spec.rollbackOnFailure then RollBack
    else GiveUp
  }

  function Seed(o: Object): Object {
    if NeedsSeed(o.status) then o.(status := Seeded(o.status, o.spec.version)) else o
  }

  /** reconcileUpgrade and reconcileShardedUpgrade, once the versions are seeded. */
  function Plan(kind: Kind, o: Object, seen: Seen): Move {
    var st := o.status;
    if st.version == "" || st.version == o.spec.version then
      if st.phase.NoPhase? then Stay(Pass) else Clear(Pass)
    else if st.phase.NoPhase? && st.observed == o.gen && st.observed != 0 then Stay(Pass)
    else
      match st.phase
      case NoPhase => Begin
      case BackingUp => BackupPlan(kind, o, seen)
      case Upgrading => Stay(Pass)
      case Validating => ValidationPlan(kind, o, seen)
      case RollingBack => RollbackPlan(o)
  }

  function Execute(o: Object, seen: Seen, m: Move): Turn {
    var w := seen.write;
    var n := Newest(o, w);
    match m
    case Stay(outcome) => Turn(o, outcome)
    case CreateBackup => Turn(o.(backups := o.backups[o.spec.version := Running]), Handled)
    case Clear(outcome) => Put(o, w, PhaseCleared(o.status), outcome)
    case Begin => Put(o, w, Begun(o.status, n.spec, o.spec.version, seen.now), Handled)
    case Roll => Put(o, w, o.status.(phase := Upgrading), Handled)
    case Complete(fcv, raise) =>
      Put(if raise then o.(committed := fcv) else o, w, Finished(o.status, o.spec.version, fcv, n.gen), Handled)
    case StartRollback => Put(o, w, o.status.(phase := RollingBack), Handled)
    case GiveUp => Put(o, w, GivenUp(o.status, n.gen), Handled)
    case RollBack => Put(o, w, RolledBack(o.status, n.gen), Handled)
  }

  function UpgradeTurn(kind: Kind, o: Object, seen: Seen): Turn {
    if NeedsSeed(o.status) && !seen.seedOk then Turn(o, Error)
    else Execute(Seed(o), seen, Plan(kind, Seed(o), seen))
  }

  /** The steps after the upgrade turn: the move to Validating, or the closing status update. */
  function TailTurn(kind: Kind, o: Object, seen: Seen): Object {
    if o.status.phase.Upgrading? then
      if kind.Sharded? && !seen.up then o
      else
        var start := if kind.Sharded? && o.status.start.Some? then o.status.start else Some(seen.now);
        Put(o, seen.tail, o.status.(phase := Validating, start := start), Handled).o
    else if !seen.finished then o
    else
      match kind
      case ReplicaSet => Put(o, seen.tail, o.status.(version := Newest(o, seen.tail).spec.version), Handled).o
      case Sharded =>
        // the counters are set outside the retried closure: fetching the newest object drops them
        if !seen.tail.ok then o
        else if seen.tail.edits != [] then Newest(o, seen.tail)
        else o.(counters := seen.counters)
  }

  /** The workload version a pass applies, if it gets that far. */
  function Applied(kind: Kind, o: Object, seen: Seen): Option<string> {
    var t := UpgradeTurn(kind, o, seen);
    if t.outcome.Pass? && seen.applyOk then Some(Image(t.o)) else None
  }

  function ReconcileTurn(kind: Kind, o: Object, seen: Seen): Object {
    var t := UpgradeTurn(kind, o, seen);
    if t.outcome.Pass? && seen.applyOk then TailTurn(kind, t.o, seen) else t.o
  }

  function Apply(kind: Kind, o: Object, e: Event): Object {
    match e
    case Edit(spec) => o.(spec := spec, gen := o.gen + 1)
    case BackupMoves(version, state) =>
      if version in o.backups then o.(backups := o.backups[version := state]) else o
    case Reconcile(seen) => ReconcileTurn(kind, o, seen)
  }

  function Run(kind: Kind, o: Object, es: seq<Event>): Object
    decreases |es|
  {
    if es == [] then o else Run(kind, Apply(kind, o, es[0]), es[1..])
  }

  // ---------------------------------------------------------------- what every step keeps

  /** The CRD pattern admits no empty version. */
  predicate ValidEvent(e: Event) {
    match e
    case Edit(spec) => spec.version != ""
    case BackupMoves(_, _) => true
    case Reconcile(seen) =>
      && (forall i | 0 <= i < |seen.write.edits| :: seen.write.edits[i].version != "")
      && (forall i | 0 <= i < |seen.tail.edits| :: seen.tail.edits[i].version != "")
  }

  ghost predicate ValidRun(es: seq<Event>) {
    forall i | 0 <= i < |es| :: ValidEvent(es[i])
  }

  ghost predicate Inv(o: Object) {
    && o.gen >= 1 && o.spec.version != "" && o.status.observed <= o.gen
    && (!o.status.phase.NoPhase? ==> o.status.observed < o.gen)
    && (!o.status.phase.NoPhase? ==> o.status.previous != "" && o.status.version != "")
    && (o.status.phase.Validating? ==> o.status.start.Some?)
  }

  /** At this generation no upgrade can start any more. */
  predicate Settled(o: Object) {
    o.status.observed == o.gen || o.status.version == o.spec.version
  }

  /** How far the machine has come within its generation. */
  function Rank(o: Object): nat {
    match o.status.phase
    case NoPhase => if Settled(o) then 4 else 0
    case BackingUp => 0
    case Upgrading => 1
    case Validating => 2
    case RollingBack => 3
  }

  /** The invariant holds afterwards, and within a generation the machine has not moved back. */
  ghost predicate Forward(o: Object, o': Object) {
    Inv(o') && o'.gen >= o.gen && (o'.gen == o.gen ==> Rank(o') >= Rank(o))
  }

  /** When each move is made. */
  predicate Due(kind: Kind, o: Object, seen: Seen, m: Move) {
    var active := o.status.version != "" && o.status.version != o.spec.version;
    var phase := o.status.phase;
    match m
    case Stay(out) =>
      out.Pass? ==> (phase.Upgrading? && active) || (phase.NoPhase? && (!active || o.status.observed == o.gen))
    case CreateBackup => active && phase.BackingUp?
    case Clear(out) =>
      && !phase.NoPhase?
      && (if out.Pass? then !active
          else active && (phase.BackingUp? || (phase.RollingBack? && o.status.previous == "")))
    case Begin => active && phase.NoPhase? && (o.status.observed == 0 || o.status.observed != o.gen)
    case Roll => active && phase.BackingUp? && BackedUp(o)
    case Complete(fcv, raise) =>
      && active && phase.Validating? && Verdict(kind, o, seen).Commit?
      && fcv == FcvMajorMinor(o.spec.version) != ""
      && raise == (o.status.fcv != fcv) && (raise ==> seen.fcvOk)
    case StartRollback => active && phase.Validating? && Verdict(kind, o, seen).Fail? && o.spec.rollbackOnFailure
    case GiveUp =>
      && active && !o.spec.rollbackOnFailure
      && ((phase.Validating? && Verdict(kind, o, seen).Fail?) || phase.RollingBack?)
    case RollBack => active && phase.RollingBack? && o.status.previous != "" && o.spec.rollbackOnFailure
  }

  lemma PlanIsDue(kind: Kind, o: Object, seen: Seen)
    ensures Due(kind, o, seen, Plan(kind, o, seen))
  {
  }

  lemma EndForward(kind: Kind, o: Object, seen: Seen, m: Move)
    requires Inv(o) && ValidEvent(Reconcile(seen)) && Due(kind, o, seen, m) && Ends(m)
    ensures Forward(o, Execute(o, seen, m).o) && !Execute(o, seen, m).outcome.Pass?
  {
  }

  lemma MoveForward(kind: Kind, o: Object, seen: Seen, m: Move)
    requires Inv(o) && ValidEvent(Reconcile(seen)) && Due(kind, o, seen, m)
    ensures Forward(o, Execute(o, seen, m).o)
    ensures Execute(o, seen, m).outcome.Pass? ==> Execute(o, seen, m).o.status.phase in {NoPhase, Upgrading}
  {
    if Ends(m) { EndForward(kind, o, seen, m); }
  }

  lemma TailForward(kind: Kind, o: Object, seen: Seen)
    requires Inv(o) && ValidEvent(Reconcile(seen)) && o.status.phase in {NoPhase, Upgrading}
    ensures Forward(o, TailTurn(kind, o, seen))
  {
  }

  lemma UpgradeForward(kind: Kind, o: Object, seen: Seen)
    requires Inv(o) && ValidEvent(Reconcile(seen))
    ensures var t := UpgradeTurn(kind, o, seen);
            Forward(o, t.o) && (t.outcome.Pass? ==> t.o.status.phase in {NoPhase, Upgrading})
  {
    assert Forward(o, Seed(o));
    PlanIsDue(kind, Seed(o), seen);
    MoveForward(kind, Seed(o), seen, Plan(kind, Seed(o), seen));
  }

  /** One event keeps the invariant, and within a generation the machine never moves back. */
  lemma StepMovesForward(kind: Kind, o: Object, e: Event)
    requires Inv(o) && ValidEvent(e)
    ensures Forward(o, Apply(kind, o, e))
  {
    if e.Reconcile? {
      UpgradeForward(kind, o, e.seen);
      var t := UpgradeTurn(kind, o, e.seen);
      if t.outcome.Pass? { TailForward(kind, t.o, e.seen); }
    }
  }

  // ---------------------------------------------------------------- at most once per generation

  predicate Enters(kind: Kind, o: Object, e: Event, phase: Phase) {
    o.status.phase != phase && Apply(kind, o, e).status.phase == phase
  }

  /** How often a run enters `phase` with the object at generation `g`. */
  function Entries(kind: Kind, o: Object, es: seq<Event>, phase: Phase, g: nat): nat
    decreases |es|
  {
    if es == [] then 0
    else
      var o' := Apply(kind, o, es[0]);
      (if Enters(kind, o, es[0], phase) && o'.gen == g then 1 else 0) + Entries(kind, o', es[1..], phase, g)
  }

  /** What a run can still add: nothing once the generation, or the phase's turn in it, is over. */
  function Left(o: Object, phase: Phase, g: nat): nat {
    if o.gen > g then 0
    else if o.gen == g && Rank(o) >= (if phase.Upgrading? then 1 else 3) then 0
    else 1
  }

  lemma {:induction false} EntriesBounded(kind: Kind, o: Object, es: seq<Event>, phase: Phase, g: nat)
    requires Inv(o) && ValidRun(es) && phase in {Upgrading, RollingBack}
    ensures Entries(kind, o, es, phase, g) <= Left(o, phase, g)
    decreases |es|
  {
    if es != [] {
      assert ValidEvent(es[0]);
      StepMovesForward(kind, o, es[0]);
      EntriesBounded(kind, Apply(kind, o, es[0]), es[1..], phase, g);
    }
  }

  /**
   In every run of either controller, with spec edits and status writes landing anywhere,
   each generation sees at most one rollout and at most one rollback, so failing and rolling
   back can never alternate.
   */
  lemma AtMostOnePerGeneration(kind: Kind, o: Object, es: seq<Event>, g: nat)
    requires Inv(o) && ValidRun(es)
    ensures Entries(kind, o, es, Upgrading, g) <= 1 && Entries(kind, o, es, RollingBack, g) <= 1
  {
    EntriesBounded(kind, o, es, Upgrading, g);
    EntriesBounded(kind, o, es, RollingBack, g);
  }

  // ---------------------------------------------------------------- single runs

  /** A pass in which every call succeeds, at time `now`. */
  function Calm(now: Time, counters: Counters): Seen {
    Seen(now, true, Write(true, []), true, true, Rolling(false), true, true, true, true, Write(true, []), counters)
  }

  lemma RunCons(kind: Kind, o: Object, e: Event, rest: seq<Event>)
    ensures Run(kind, o, [e] + rest) == Run(kind, Apply(kind, o, e), rest)
  {
    assert ([e] + rest)[0] == e && ([e] + rest)[1..] == rest;
  }

  /** The moves that end an upgrade attempt. */
  predicate Ends(m: Move) {
    m.Complete? || m.GiveUp? || m.RollBack?
  }

  // ---------------------------------------------------------------- the version that is certified

  /** What is being rolled out is what the spec asks for. */
  predicate OnTarget(o: Object) {
    o.status.phase.NoPhase? || o.status.effective == o.spec.version
  }

  lemma MoveOnTarget(kind: Kind, o: Object, seen: Seen, m: Move)
    requires Due(kind, o, seen, m) && OnTarget(o)
    ensures var o' := Execute(o, seen, m).o; o'.status.phase.NoPhase? || o'.status.effective == o.spec.version
  {
  }

  /** An edit has changed the target of a rollout that is under way. */
  predicate Retargets(kind: Kind, o: Object, e: Event) {
    var o' := Apply(kind, o, e);
    !o'.status.phase.NoPhase? && o'.spec.version != o.spec.version
  }

  lemma TailKeepsTarget(kind: Kind, o: Object, seen: Seen)
    ensures var o' := TailTurn(kind, o, seen);
            o'.status.effective == o.status.effective && o'.status.phase.NoPhase? == o.status.phase.NoPhase?
  {
  }

  lemma UpgradeKeepsTarget(kind: Kind, o: Object, seen: Seen)
    requires OnTarget(o)
    ensures var o' := UpgradeTurn(kind, o, seen).o; o'.status.phase.NoPhase? || o'.status.effective == o.spec.version
  {
    assert OnTarget(Seed(o));
    PlanIsDue(kind, Seed(o), seen);
    MoveOnTarget(kind, Seed(o), seen, Plan(kind, Seed(o), seen));
  }

  lemma OnTargetStep(kind: Kind, o: Object, e: Event)
    requires OnTarget(o)
    ensures OnTarget(Apply(kind, o, e)) <==> !Retargets(kind, o, e)
  {
    if e.Reconcile? {
      UpgradeKeepsTarget(kind, o, e.seen);
      TailKeepsTarget(kind, UpgradeTurn(kind, o, e.seen).o, e.seen);
    }
  }

  ghost predicate AlwaysOnTarget(kind: Kind, o: Object, es: seq<Event>)
    decreases |es|
  {
    OnTarget(o) && (es == [] || AlwaysOnTarget(kind, Apply(kind, o, es[0]), es[1..]))
  }

  ghost predicate NeverRetargeted(kind: Kind, o: Object, es: seq<Event>)
    decreases |es|
  {
    es == [] || (!Retargets(kind, o, es[0]) && NeverRetargeted(kind, Apply(kind, o, es[0]), es[1..]))
  }

  /**
   The version under validation is the version deployed, in every state of a run, exactly
   when no edit changes the spec's version while a phase is active.
   */
  lemma {:induction false} OnTargetIffNeverRetargeted(kind: Kind, o: Object, es: seq<Event>)
    requires OnTarget(o)
    ensures AlwaysOnTarget(kind, o, es) <==> NeverRetargeted(kind, o, es)
    decreases |es|
  {
    if es != [] {
      OnTargetStep(kind, o, es[0]);
      if OnTarget(Apply(kind, o, es[0])) { OnTargetIffNeverRetargeted(kind, Apply(kind, o, es[0]), es[1..]); }
    }
  }

  /** A retargeted rollout that completes certifies a version no workload was built from. */
  lemma RetargetedCompletion(kind: Kind, o: Object, seen: Seen)
    requires !OnTarget(o) && !NeedsSeed(o.status) && seen.write.ok && Plan(kind, o, seen).Complete?
    ensures var o' := ReconcileTurn(kind, o, seen);
            o'.status.phase.NoPhase? && o'.status.version == o.spec.version != Image(o)
  {
    assert Execute(o, seen, Plan(kind, o, seen)).outcome.Handled?;
  }

  // ---------------------------------------------------------------- backup before rollout

  /** No edit lands: the generation stays what it is. */
  predicate SameSpec(e: Event) {
    match e
    case Edit(_) => false
    case BackupMoves(_, _) => true
    case Reconcile(seen) => seen.write.edits == [] && seen.tail.edits == []
  }

  predicate BackedUp(o: Object) {
    o.spec.version in o.backups && o.backups[o.spec.version].Completed?
  }

  /** An upgrade with a pre-upgrade backup is due, or its backup is being waited for. */
  predicate AwaitsBackup(o: Object) {
    && o.spec.backupFirst && !NeedsSeed(o.status) && o.spec.version != "" && o.status.version != o.spec.version
    && o.status.phase in {NoPhase, BackingUp} && o.status.observed != o.gen
  }

  predicate AppliesWorkload(kind: Kind, o: Object, e: Event) {
    e.Reconcile? && Applied(kind, o, e.seen).Some?
  }

  ghost predicate NeverBackedUp(kind: Kind, o: Object, es: seq<Event>)
    decreases |es|
  {
    !BackedUp(o) && (es == [] || NeverBackedUp(kind, Apply(kind, o, es[0]), es[1..]))
  }

  ghost predicate NeverApplies(kind: Kind, o: Object, es: seq<Event>)
    decreases |es|
  {
    es == [] || (!AppliesWorkload(kind, o, es[0]) && NeverApplies(kind, Apply(kind, o, es[0]), es[1..]))
  }

  lemma AwaitsMove(kind: Kind, o: Object, seen: Seen, m: Move)
    requires AwaitsBackup(o) && !BackedUp(o) && seen.write.edits == [] && Due(kind, o, seen, m)
    ensures AwaitsBackup(Execute(o, seen, m).o) && !Execute(o, seen, m).outcome.Pass?
  {
  }

  lemma AwaitsStep(kind: Kind, o: Object, e: Event)
    requires AwaitsBackup(o) && !BackedUp(o) && SameSpec(e)
    ensures !AppliesWorkload(kind, o, e) && AwaitsBackup(Apply(kind, o, e))
  {
    if e.Reconcile? {
      PlanIsDue(kind, o, e.seen);
      AwaitsMove(kind, o, e.seen, Plan(kind, o, e.seen));
    }
  }

  /**
   At a fixed generation, however often the backup fails and is retried, no workload is
   applied before the target version's own backup has been observed Completed.
   */
  lemma {:induction false} NoRolloutBeforeBackup(kind: Kind, o: Object, es: seq<Event>)
    requires AwaitsBackup(o) && NeverBackedUp(kind, o, es)
    requires forall i | 0 <= i < |es| :: SameSpec(es[i])
    ensures NeverApplies(kind, o, es) && AwaitsBackup(Run(kind, o, es))
    decreases |es|
  {
    if es != [] {
      assert SameSpec(es[0]);
      AwaitsStep(kind, o, es[0]);
      NoRolloutBeforeBackup(kind, Apply(kind, o, es[0]), es[1..]);
    }
  }
}
