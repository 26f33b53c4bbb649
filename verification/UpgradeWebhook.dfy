/**
 The admission webhook of a sharded cluster and its upgrades
 (internal/webhook/v1alpha1/mongodbsharded_webhook.go, api/v1alpha1/common_types.go,
 internal/controller/sharded_upgrade.go): the webhook lets a version edit through only along the
 upgrade path, and that is what keeps every rollback on a binary of the committed FCV.
 */
module UpgradeWebhook {
  import opened Options
  import opened Text
  import opened VersionText
  import opened Upgrade
  import opened UpgradeFcv
  import VP = VersionPath
  import SL = SupportedList

  // ---------------------------------------------------------------- versions along the path

  ghost predicate Below(list: seq<string>, a: string, b: string) {
    VP.Readable(list, a) && VP.Readable(list, b) && VP.AtMost(Parse(a), Parse(b))
  }

  /** `fcv` is empty, or a major.minor between the recorded version and the spec's. */
  ghost predicate Chain(list: seq<string>, version: string, fcv: string, spec: string) {
    && Below(list, version, spec)
    && (fcv == "" || (FcvMajorMinor(fcv) == fcv && Below(list, version, fcv) && Below(list, fcv, spec)))
  }

  /** The major.minor of a supported version is itself a listed version, and the same one. */
  lemma FcvIsListed(list: seq<string>, v: string)
    requires VP.Readable(list, v)
    ensures var fcv := FcvMajorMinor(v);
            fcv in list && VP.Readable(list, fcv) && Parse(fcv) == Parse(v) && FcvMajorMinor(fcv) == fcv
  {
    var parts := Split(v, '.');
    var a, b := parts[0], parts[1];
    SplitIsFree(v, '.');
    SplitTwo(a, b, "");
    assert a + "." + b + "" == a + "." + b;
    TwoPieces(a, b, "");
    var mm := SplitVersion(a + "." + b);
    assert mm[0] == mm[..2][0] == a && mm[1] == mm[..2][1] == b;
    assert SplitVersion(v)[0] == a && SplitVersion(v)[1] == b;
  }

  lemma ListedOnce(list: seq<string>, x: string, y: string)
    requires VP.WellListed(list) && x in list && y in list && Parse(x) == Parse(y)
    ensures x == y
  {
    var i: nat :| i < |list| && list[i] == x;
    var j: nat :| j < |list| && list[j] == y;
    assert i == j;
  }

  /** On a list without duplicates, versions parse alike exactly when their major.minor text is the same. */
  lemma SameParseSameFcv(list: seq<string>, v: string, w: string)
    requires VP.WellListed(list) && VP.Readable(list, v) && VP.Readable(list, w)
    ensures Parse(v) == Parse(w) <==> FcvMajorMinor(v) == FcvMajorMinor(w)
  {
    var x, y := FcvMajorMinor(v), FcvMajorMinor(w);
    assert x in list && Parse(x) == Parse(v) by { FcvIsListed(list, v); }
    assert y in list && Parse(y) == Parse(w) by { FcvIsListed(list, w); }
    if Parse(v) == Parse(w) { ListedOnce(list, x, y); }
  }

  predicate Admits(list: seq<string>, prior: string, next: string) {
    VP.CheckPath(VP.V1alpha1, list, prior, next).Allowed?
  }

  lemma AdmittedGoesUp(list: seq<string>, prior: string, next: string)
    requires VP.Readable(list, prior) && Admits(list, prior, next)
    ensures Below(list, prior, next)
  {
    VP.AllowedIff(list, prior, next);
    VP.AcceptedStep(list, prior, next);
  }

  lemma ChainGoesUp(list: seq<string>, version: string, fcv: string, spec: string, spec': string)
    requires Chain(list, version, fcv, spec) && Admits(list, spec, spec')
    ensures Chain(list, version, fcv, spec')
  {
    AdmittedGoesUp(list, spec, spec');
  }

  lemma {:induction false} ChainGoesUpAll(list: seq<string>, version: string, fcv: string, spec: string,
                                          edits: seq<Spec>)
    requires Chain(list, version, fcv, spec) && AdmitsEdits(list, spec, edits)
    ensures Chain(list, version, fcv, if edits == [] then spec else edits[|edits| - 1].version)
    decreases |edits|
  {
    if edits != [] {
      ChainGoesUp(list, version, fcv, spec, edits[0].version);
      ChainGoesUpAll(list, version, fcv, edits[0].version, edits[1..]);
      assert |edits| > 1 ==> edits[1..][|edits| - 2] == edits[|edits| - 1];
    }
  }

  /** Raising the FCV for the spec keeps the order, and so does completing. */
  lemma ChainRaised(list: seq<string>, version: string, spec: string)
    requires Below(list, version, spec)
    ensures Chain(list, version, FcvMajorMinor(spec), spec) && Chain(list, spec, FcvMajorMinor(spec), spec)
  {
    FcvIsListed(list, spec);
  }

  /** With the spec on the recorded major.minor there is no room for another FCV in between. */
  lemma ChainCollapses(list: seq<string>, version: string, fcv: string, spec: string)
    requires VP.WellListed(list) && Chain(list, version, fcv, spec) && FcvMajorMinor(version) == FcvMajorMinor(spec)
    ensures Matches(fcv, version) && Chain(list, spec, fcv, spec)
  {
    SameParseSameFcv(list, version, spec);
    if fcv != "" { SameParseSameFcv(list, version, fcv); }
  }

  // ---------------------------------------------------------------- runs behind the webhook

  ghost predicate Ordered(list: seq<string>, o: Object) {
    Chain(list, Seed(o).status.version, o.committed, o.spec.version)
  }

  /** Each edit passes the webhook against the one before. */
  ghost predicate AdmitsEdits(list: seq<string>, from: string, edits: seq<Spec>)
    decreases |edits|
  {
    edits == [] || (Admits(list, from, edits[0].version) && AdmitsEdits(list, edits[0].version, edits[1..]))
  }

  ghost predicate AdmitsWrite(list: seq<string>, o: Object, w: Write) {
    AdmitsEdits(list, o.spec.version, w.edits)
  }

  /** Every edit that lands with this event has passed the webhook. */
  ghost predicate AdmitsEvent(list: seq<string>, o: Object, e: Event) {
    match e
    case Edit(spec) => Admits(list, o.spec.version, spec.version)
    case BackupMoves(_, _) => true
    case Reconcile(seen) =>
      AdmitsWrite(list, o, seen.write) && AdmitsWrite(list, UpgradeTurn(Sharded, o, seen).o, seen.tail)
  }

  ghost predicate AdmitsRun(list: seq<string>, o: Object, es: seq<Event>)
    decreases |es|
  {
    es == [] || (AdmitsEvent(list, o, es[0]) && AdmitsRun(list, Apply(Sharded, o, es[0]), es[1..]))
  }

  lemma OrderedEdit(list: seq<string>, o: Object, spec: Spec)
    requires Ordered(list, o) && RollbackInv(o) && Admits(list, o.spec.version, spec.version)
    ensures Ordered(list, o.(spec := spec, gen := o.gen + 1))
  {
    ChainGoesUp(list, Seed(o).status.version, o.committed, o.spec.version, spec.version);
    AdmittedGoesUp(list, o.spec.version, spec.version);
    assert o.status.version == "" ==> o.committed == "" by { assert FcvMajorMinor("") == ""; }
  }

  lemma SeededIsOrdered(list: seq<string>, o: Object)
    requires !NeedsSeed(o.status) && Chain(list, o.status.version, o.committed, o.spec.version)
    ensures Ordered(list, o)
  {
    assert Seed(o) == o;
  }

  lemma ChainToNewest(list: seq<string>, o: Object, w: Write, st: Status)
    requires !NeedsSeed(st) && Chain(list, st.version, o.committed, o.spec.version) && AdmitsWrite(list, o, w)
    ensures Ordered(list, Newest(o, w).(status := st))
  {
    var o' := Newest(o, w).(status := st);
    ChainGoesUpAll(list, st.version, o.committed, o.spec.version, w.edits);
    assert o'.spec.version == if w.edits == [] then o.spec.version else w.edits[|w.edits| - 1].version;
    SeededIsOrdered(list, o');
  }

  /** The newest object, with the recorded version and the committed FCV of the object at hand. */
  lemma OrderedPut(list: seq<string>, o: Object, w: Write, st: Status, done: Outcome)
    requires !NeedsSeed(st) && Chain(list, st.version, o.committed, o.spec.version) && AdmitsWrite(list, o, w)
    requires !NeedsSeed(o.status) && Ordered(list, o)
    ensures Ordered(list, Put(o, w, st, done).o)
  {
    if w.ok { ChainToNewest(list, o, w, st); }
  }

  lemma OrderedComplete(list: seq<string>, o: Object, seen: Seen, m: Move)
    requires VP.WellListed(list) && Ordered(list, o) && RollbackInv(o) && !NeedsSeed(o.status)
    requires AdmitsWrite(list, o, seen.write) && Due(Sharded, o, seen, m) && m.Complete?
    ensures Ordered(list, Execute(o, seen, m).o)
  {
    ChainRaised(list, o.status.version, o.spec.version);
    if !m.raise { ChainCollapses(list, o.status.version, o.committed, o.spec.version); }
    var o1 := if m.raise then o.(committed := m.fcv) else o;
    OrderedPut(list, o1, seen.write, Finished(o.status, o.spec.version, m.fcv, Newest(o, seen.write).gen), Handled);
  }

  lemma OrderedMove(list: seq<string>, o: Object, seen: Seen, m: Move)
    requires VP.WellListed(list) && Ordered(list, o) && RollbackInv(o) && !NeedsSeed(o.status)
    requires AdmitsWrite(list, o, seen.write) && Due(Sharded, o, seen, m)
    ensures Ordered(list, Execute(o, seen, m).o)
  {
    var w, st, n := seen.write, o.status, Newest(o, seen.write);
    match m
    case Stay(_) =>
    case CreateBackup =>
    case Clear(outcome) => OrderedPut(list, o, w, PhaseCleared(st), outcome);
    case Begin => OrderedPut(list, o, w, Begun(st, n.spec, o.spec.version, seen.now), Handled);
    case Roll => OrderedPut(list, o, w, st.(phase := Upgrading), Handled);
    case Complete(_, _) => OrderedComplete(list, o, seen, m);
    case StartRollback => OrderedPut(list, o, w, st.(phase := RollingBack), Handled);
    case GiveUp => OrderedPut(list, o, w, GivenUp(st, n.gen), Handled);
    case RollBack => OrderedPut(list, o, w, RolledBack(st, n.gen), Handled);
  }

  lemma OrderedTail(list: seq<string>, o: Object, seen: Seen)
    requires Ordered(list, o) && !NeedsSeed(o.status) && AdmitsWrite(list, o, seen.tail)
    ensures Ordered(list, TailTurn(Sharded, o, seen))
  {
    ChainToNewest(list, o, seen.tail, TailTurn(Sharded, o, seen).status);
  }

  /** A move leaves the versions seeded. */
  lemma MoveKeepsSeeded(o: Object, seen: Seen, m: Move)
    requires !NeedsSeed(o.status) && o.spec.version != "" && Due(Sharded, o, seen, m)
    ensures !NeedsSeed(Execute(o, seen, m).o.status)
  {
  }

  lemma OrderedSeed(list: seq<string>, o: Object)
    requires Ordered(list, o) && RollbackInv(o) && o.spec.version != ""
    ensures Ordered(list, Seed(o)) && RollbackInv(Seed(o)) && !NeedsSeed(Seed(o).status)
  {
    SeedKeepsRollbackInv(o);
    assert Seed(Seed(o)) == Seed(o);
  }

  lemma OrderedExecute(list: seq<string>, o: Object, seen: Seen, m: Move, t: Turn)
    requires VP.WellListed(list) && Ordered(list, o) && RollbackInv(o) && o.spec.version != "" && !NeedsSeed(o.status)
    requires AdmitsWrite(list, o, seen.write) && Due(Sharded, o, seen, m) && t == Execute(o, seen, m)
    ensures Ordered(list, t.o) && !NeedsSeed(t.o.status)
  {
    OrderedMove(list, o, seen, m);
    MoveKeepsSeeded(o, seen, m);
  }

  lemma OrderedTurn(list: seq<string>, o: Object, seen: Seen, t: Turn)
    requires VP.WellListed(list) && Ordered(list, o) && RollbackInv(o) && o.spec.version != ""
    requires AdmitsWrite(list, o, seen.write) && t == UpgradeTurn(Sharded, o, seen)
    ensures Ordered(list, t.o) && (t.outcome.Pass? ==> !NeedsSeed(t.o.status))
  {
    if !NeedsSeed(o.status) || seen.seedOk {
      var o1 := Seed(o);
      OrderedSeed(list, o);
      PlanIsDue(Sharded, o1, seen);
      OrderedExecute(list, o1, seen, Plan(Sharded, o1, seen), t);
    }
  }

  lemma OrderedPass(list: seq<string>, o: Object, seen: Seen)
    requires VP.WellListed(list) && Ordered(list, o) && RollbackInv(o) && o.spec.version != ""
    requires AdmitsEvent(list, o, Reconcile(seen))
    ensures Ordered(list, ReconcileTurn(Sharded, o, seen))
  {
    var t := UpgradeTurn(Sharded, o, seen);
    OrderedTurn(list, o, seen, t);
    if t.outcome.Pass? && seen.applyOk { OrderedTail(list, t.o, seen); }
  }

  lemma OrderedOtherwise(list: seq<string>, o: Object, o': Object)
    requires Ordered(list, o) && o'.spec == o.spec && o'.status == o.status && o'.committed == o.committed
    ensures Ordered(list, o')
  {
    assert Seed(o').status == Seed(o).status;
  }

  lemma OrderedStep(list: seq<string>, o: Object, e: Event, o': Object)
    requires VP.WellListed(list) && Ordered(list, o) && RollbackInv(o) && o.spec.version != ""
    requires AdmitsEvent(list, o, e) && o' == Apply(Sharded, o, e)
    ensures Ordered(list, o')
  {
    if e.Edit? {
      OrderedEdit(list, o, e.spec);
    } else if e.Reconcile? {
      OrderedPass(list, o, e.seen);
    } else {
      assert o'.spec == o.spec && o'.status == o.status && o'.committed == o.committed;
      OrderedOtherwise(list, o, o');
    }
  }

  lemma OrderedIsNotReverted(list: seq<string>, o: Object)
    requires VP.WellListed(list) && Ordered(list, o) && RollbackInv(o)
    ensures !Reverted(o)
  {
    if o.status.phase.Validating? && FcvMajorMinor(o.spec.version) == FcvMajorMinor(o.status.version) {
      ChainCollapses(list, o.status.version, o.committed, o.spec.version);
    }
  }

  lemma ReadableIsNotEmpty(list: seq<string>, v: string)
    requires VP.Readable(list, v)
    ensures v != ""
  {
  }

  /**
   Behind the webhook every rollback of a sharded run, lost status writes included, lands on a
   binary whose major.minor is that of any FCV committed so far.
   */
  lemma {:induction false} WebhookKeepsRollbacksSafe(list: seq<string>, o: Object, es: seq<Event>)
    requires VP.WellListed(list) && Ordered(list, o) && RollbackInv(o) && AdmitsRun(list, o, es)
    ensures NeverReverted(o, es) && RollbacksAreSafe(o, es)
    decreases |es|
  {
    OrderedIsNotReverted(list, o);
    if es != [] {
      ReadableIsNotEmpty(list, o.spec.version);
      OrderedStep(list, o, es[0], Apply(Sharded, o, es[0]));
      RollbackStep(o, es[0]);
      WebhookKeepsRollbacksSafe(list, Apply(Sharded, o, es[0]), es[1..]);
    }
  }

  /** A new cluster on a supported version starts in order. */
  lemma FreshIsOrdered(list: seq<string>, spec: Spec, counters: Counters)
    requires VP.Readable(list, spec.version)
    ensures var o := Object(spec, 1, Status(NoPhase, "", "", "", "", 0, 0, None, false), map[], counters, "");
            Ordered(list, o) && RollbackInv(o)
  {
    ReadableIsNotEmpty(list, spec.version);
  }

  lemma AdmitsOne(list: seq<string>, o: Object, e: Event)
    requires AdmitsEvent(list, o, e)
    ensures AdmitsRun(list, o, [e])
  {
    assert AdmitsRun(list, Apply(Sharded, o, e), [e][1..]);
  }

  /**
   The hypotheses are met in practice: on an ascending list, such as the shipped one, a new
   cluster is in order, and the edit to the next listed version passes the webhook.
   */
  lemma AscendingListIsAdmitted(vs: seq<SL.Number>, i: nat, spec: Spec, next: Spec, counters: Counters)
    requires SL.Climbing(vs) && i + 1 < |vs| && vs[i + 1].major <= vs[i].major + 1
    requires spec.version == Format(vs[i]) && next.version == Format(vs[i + 1])
    ensures var o := Object(spec, 1, Status(NoPhase, "", "", "", "", 0, 0, None, false), map[], counters, "");
            && VP.WellListed(SL.FormatAll(vs)) && Ordered(SL.FormatAll(vs), o) && RollbackInv(o)
            && AdmitsRun(SL.FormatAll(vs), o, [Edit(next)])
  {
    var list := SL.FormatAll(vs);
    var o := Object(spec, 1, Status(NoPhase, "", "", "", "", 0, 0, None, false), map[], counters, "");
    SL.ClimbingListFits(vs);
    SL.ListedIsReadable(vs, i);
    FreshIsOrdered(list, spec, counters);
    SL.NeighboursAccepted(vs, i);
    AdmitsOne(list, o, Edit(next));
  }
}
