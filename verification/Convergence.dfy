/** Where a faultless reconcile leaves a system that nothing outside has disturbed. */
module Convergence {
  import opened Model
  import opened Provider
  import opened Calls
  import opened Invariants
  import opened Reconciling
  import opened Passes
  import opened Replay
  import opened Nodes
  import opened NodeCalls
  import opened Linux
  import opened Backing
  import opened Systems
  import opened SystemInvariant
  import opened Troubles

  // ----- one cell -----

  /** The volume is as its owner asked, and the platform knows it. */
  predicate Settled(v: Volume, disk: Option<Disk>) {
    if v.deleteRequested then v.state == DELETED && v.lastError == Clear && disk == None
    else
      && v.state == AVAILABLE && v.lastError == Clear && v.size == v.desired
      && disk.Some? && disk.value.size == v.desired
  }

  lemma VolumeSettles(k: string, v: Volume, busy: bool, disk: Option<Disk>)
    requires VolumeOk(k, v) && DeviceOk(k, v)
    requires v.state == DELETED ==> v.lastError == Clear
    requires disk.Some? ==> v.state != DELETED && disk.value.deviceKey == DeviceKeyOf(k) && disk.value.size <= v.desired
    requires disk.Some? && disk.value.instance != "" ==> busy
    requires busy ==> Serving(v)
    requires Serving(v) ==> disk.Some?
    ensures var o := VolumeItem(v, busy, disk, NO_FAULTS);
            && Settled(o.volume, o.disk)
            && (disk.Some? && o.disk.Some? ==> HeldBy(o.disk.value, disk.value.instance, disk.value.attachment))
  {
  }

  /** Where an attachment ends up, by what was asked of it: draining ones go when nobody uses them, wanted ones are
      attached where their machine is active and are fenced off where it is not. */
  predicate Arrived(a: Attachment, active: bool, b: Attachment, disk: Option<Disk>) {
    if a.deleteRequested then
      if a.uses == {} then b.state == DETACHED && b.lastError == Clear && !AttachedBy(disk, a)
      else b.state == DETACHING && b.lastError == Clear && AttachedBy(disk, a)
    else if active then b.state == ATTACHED && b.lastError == Clear && AttachedBy(disk, a)
    else b.state == a.state && b.lastError == Fencing
  }

  lemma AttachmentArrives(a: Attachment, active: bool, disk: Option<Disk>)
    requires Live(a) && disk.Some? && a.link.instance != ""
    requires a.deleteRequested <==> a.state == DETACHING || a.state == DETACHED
    requires disk.value.instance != "" ==> AttachedBy(disk, a)
    requires Claims(a) ==> AttachedBy(disk, a)
    ensures var o := AttachmentItem(a, active, Clear, disk, NO_FAULTS); Arrived(a, active, o.attachment, o.disk)
  {
  }

  // ----- the whole run -----

  /** A disk whose cloud record nothing outside the system has ever altered. */
  ghost predicate Calm(cfg: Config, w: View, k: string, drifted: set<string>) {
    && ConfigOk(cfg) && Sound(cfg, w.platform) && Backed(w.platform, w.cloud, drifted)
    && k in w.platform.volumes && k !in drifted
    && (w.platform.volumes[k].state == DELETED ==> w.platform.volumes[k].lastError == Clear)
  }

  lemma CellFacts(cfg: Config, w: View, k: string, drifted: set<string>)
    requires Calm(cfg, w, k, drifted)
    ensures var c := CellOf(w, k);
            && VolumeOk(k, c.volume) && DeviceOk(k, c.volume)
            && (CellBusy(c) <==> Busy(w.platform, k))
            && (c.attachment.Some? <==> CellBusy(c))
            && (c.disk.Some? ==>
                 && c.volume.state != DELETED && c.disk.value.deviceKey == DeviceKeyOf(k)
                 && c.disk.value.size <= c.volume.desired)
            && (c.disk.Some? && c.disk.value.instance != "" ==> CellBusy(c))
            && (CellBusy(c) ==> Serving(c.volume))
            && (Serving(c.volume) ==> c.disk.Some?)
            && (CellBusy(c) ==>
                 var a := c.attachment.value;
                 && a.link.instance != "" && (a.deleteRequested <==> a.state == DETACHING || a.state == DETACHED)
                 && (c.disk.value.instance != "" ==> AttachedBy(c.disk, a)) && (Claims(a) ==> AttachedBy(c.disk, a)))
  {
    hide PlatformOk;
    var s, disk := w.platform, Look(w.cloud, k);
    assert Backs(s, k, disk, drifted);
    VolumeFacts(cfg, s, k);
    if Busy(s, k) {
      var x := LiveOn(s, k).value;
      AttachmentFacts(cfg, s, x, disk, drifted);
      assert ClaimMet(s, x, disk);
    }
    if disk.Some? && disk.value.instance != "" { assert IsLiveOn(s, k, disk.value.attachment); }
  }

  /** One faultless reconcile: no volume is left creating, resizing or deleting. */
  lemma VolumesSettle(cfg: Config, w: View, k: string, drifted: set<string>)
    requires Calm(cfg, w, k, drifted)
    ensures var z := Reconciled(cfg, w, CALM);
            && k in z.platform.volumes && Settled(z.platform.volumes[k], Look(z.cloud, k))
            && z.platform.volumes[k].desired == w.platform.volumes[k].desired
            && z.platform.volumes[k].deleteRequested == w.platform.volumes[k].deleteRequested
  {
    hide PlatformOk, VolumeItem, AttachmentItem, Midway, CellAt, CellOf;
    var c := CellOf(w, k);
    CellFacts(cfg, w, k, drifted);
    RecordedCell(cfg, w, CALM, k);
    FullCell(cfg, w, CALM, k);
    CellVolume(w, k);
    VolumeSettles(k, c.volume, CellBusy(c), c.disk);
    var m := PassVolume(c, NO_FAULTS);
    if CellBusy(c) {
      AttachmentItemFrame(c.attachment.value, ActiveFor(cfg, w.platform, k), m.volume.lastError, m.disk, NO_FAULTS);
    }
  }

  lemma CellVolume(w: View, k: string)
    requires k in w.platform.volumes
    ensures CellOf(w, k).volume == w.platform.volumes[k]
  {
  }

  /** And every live attachment has got as far as its uses and its machine allow. */
  lemma AttachmentsArrive(cfg: Config, w: View, x: string, drifted: set<string>)
    requires PlatformOk(cfg, w.platform) && x in w.platform.attachments && Live(w.platform.attachments[x])
    requires Calm(cfg, w, w.platform.attachments[x].link.volume, drifted)
    ensures var z, a := Reconciled(cfg, w, CALM), w.platform.attachments[x];
            && x in z.platform.attachments
            && Arrived(a, InstanceActive(cfg, a.link.instance), z.platform.attachments[x], Look(z.cloud, a.link.volume))
  {
    hide PlatformOk, VolumeItem, AttachmentItem, Midway, CellAt;
    var a := w.platform.attachments[x];
    var k := a.link.volume;
    var c := CellOf(w, k);
    LiveIsLiveOn(cfg, w.platform, x);
    CellFacts(cfg, w, k, drifted);
    FullCell(cfg, w, CALM, k);
    FullAttachment(cfg, w, CALM, x);
    RecordedCell(cfg, w, CALM, k);
    DeadStaysPut(cfg, w, CALM, x);
    VolumeSettles(k, c.volume, true, c.disk);
    AttachmentArrives(a, InstanceActive(cfg, a.link.instance), PassVolume(c, NO_FAULTS).disk);
  }

  // ----- as events, among the events of the nodes -----

  /** An event of a reconcile run that meets these faults, or of some node. No drift, no crash of the platform. */
  ghost predicate Quiet(orc: Oracle, e: Event) {
    match e
    case VolumeTurn(k, f) => f == orc.volumes(k)
    case AttachmentTurn(x, f) => f == orc.attachments(x)
    case NodeStarts(_, _) => true
    case NodeCalls(_, _) => true
    case NodeSaves(_, _) => true
    case NodeHosts(_, _) => true
    case NodeCrashes(_) => true
    case _ => false
  }

  /** A run that started at `w` has done exactly `done`. */
  ghost predicate Underway(y: System, w: View, orc: Oracle, done: Items) {
    && PlatformOk(y.cfg, w.platform) && Reachable(w.platform, done)
    && y.txn.Some?
    && View(y.txn.value.work, y.cloud) == Midway(y.cfg, w, orc, done)
    && y.txn.value.volumes == w.platform.volumes.Keys - done.volumes
    && y.txn.value.attachments == w.platform.attachments.Keys - done.attachments
  }

  lemma OpenedIsUnderway(y: System, orc: Oracle)
    requires Inv(y) && y.txn.None?
    ensures Underway(Step(y, Open), View(y.platform, y.cloud), orc, Items({}, {}))
  {
    hide PlatformOk, Midway, NodesFit, Backed, Shadows;
    NothingDone(y.cfg, View(y.platform, y.cloud), orc);
  }

  lemma NoneLeft(all: set<string>, done: set<string>)
    requires done <= all && all - done == {}
    ensures done == all
  {
    forall k | k in all ensures k in done { assert k in all - done || k in done; }
  }

  lemma VolumeTurnFollows(y: System, k: string, w: View, orc: Oracle, done: Items)
    requires Underway(y, w, orc, done) && VolumeTurned(y, k, orc.volumes(k)) != y
    ensures Underway(VolumeTurned(y, k, orc.volumes(k)), w, orc, Items(done.volumes + {k}, {}))
  {
    hide PlatformOk, Midway, StepVolume;
    assert done.attachments == {} by { assert k !in done.volumes; }
    VolumeAdvances(y.cfg, w, orc, done.volumes, k);
  }

  lemma AttachmentTurnFollows(y: System, x: string, w: View, orc: Oracle, done: Items)
    requires Underway(y, w, orc, done) && AttachmentTurned(y, x, orc.attachments(x)) != y
    ensures Underway(AttachmentTurned(y, x, orc.attachments(x)), w, orc, Items(done.volumes, done.attachments + {x}))
  {
    hide PlatformOk, Midway, StepAttachment;
    NoneLeft(w.platform.volumes.Keys, done.volumes);
    AttachmentAdvances(y.cfg, w, orc, done.attachments, x, View(y.txn.value.work, y.cloud));
  }

  /** While a transaction is open a node's event moves neither it nor the cloud nor the configuration. */
  lemma NodesStayOut(y: System, e: Event)
    requires y.txn.Some? && (e.NodeStarts? || e.NodeCalls? || e.NodeSaves? || e.NodeHosts? || e.NodeCrashes?)
    ensures var z := Step(y, e); z.txn == y.txn && z.cloud == y.cloud && z.cfg == y.cfg
  {
    hide NodeApply, HostStep, FormatRequired;
  }

  lemma {:induction false} QuietRunFollows(y: System, es: seq<Event>, w: View, orc: Oracle, done: Items)
    returns (after: Items)
    requires Underway(y, w, orc, done) && forall n :: 0 <= n < |es| ==> Quiet(orc, es[n])
    ensures Underway(Run(y, es), w, orc, after)
    decreases |es|
  {
    hide Underway, Step;
    after := done;
    if es != [] {
      after := QuietStepFollows(y, es[0], w, orc, done);
      after := QuietRunFollows(Step(y, es[0]), es[1..], w, orc, after);
    }
  }

  lemma QuietStepFollows(y: System, e: Event, w: View, orc: Oracle, done: Items) returns (after: Items)
    requires Underway(y, w, orc, done) && Quiet(orc, e)
    ensures Underway(Step(y, e), w, orc, after)
  {
    hide PlatformOk, Midway, VolumeTurned, AttachmentTurned, Reachable;
    after := done;
    match e {
      case VolumeTurn(k, f) =>
        if VolumeTurned(y, k, f) != y {
          VolumeTurnFollows(y, k, w, orc, done);
          after := Items(done.volumes + {k}, {});
        }
      case AttachmentTurn(x, f) =>
        if AttachmentTurned(y, x, f) != y {
          AttachmentTurnFollows(y, x, w, orc, done);
          after := Items(done.volumes, done.attachments + {x});
        }
      case _ => NodesStayOut(y, e);
    }
  }

  /** A reconcile run that commits, its items in any order and the nodes busy in between, does to platform and cloud
      what the closed form says. */
  lemma CommittedRun(y: System, es: seq<Event>, orc: Oracle)
    requires Inv(y) && y.txn.None? && forall n :: 0 <= n < |es| ==> Quiet(orc, es[n])
    requires Step(Run(Step(y, Open), es), Commit).txn.None?
    ensures var z := Step(Run(Step(y, Open), es), Commit);
            View(z.platform, z.cloud) == Reconciled(y.cfg, View(y.platform, y.cloud), orc)
  {
    hide Inv, Underway, Step, Quiet, Run, Midway;
    var w := View(y.platform, y.cloud);
    OpenedIsUnderway(y, orc);
    OpenedKeepsCfg(y);
    var done := QuietRunFollows(Step(y, Open), es, w, orc, Items({}, {}));
    QuietCfg(Step(y, Open), es, orc);
    CommitFollows(Run(Step(y, Open), es), w, orc, done);
  }

  lemma OpenedKeepsCfg(y: System)
    ensures Step(y, Open).cfg == y.cfg && Step(y, Open).txn.Some?
  {
  }

  lemma CommitFollows(y: System, w: View, orc: Oracle, done: Items)
    requires Underway(y, w, orc, done) && Step(y, Commit).txn.None?
    ensures var z := Step(y, Commit); View(z.platform, z.cloud) == Reconciled(y.cfg, w, orc)
  {
    hide PlatformOk, Midway;
    NoneLeft(w.platform.volumes.Keys, done.volumes);
    NoneLeft(w.platform.attachments.Keys, done.attachments);
  }

  lemma {:induction false} QuietCfg(y: System, es: seq<Event>, orc: Oracle)
    requires y.txn.Some? && forall n :: 0 <= n < |es| ==> Quiet(orc, es[n])
    ensures Run(y, es).cfg == y.cfg && Run(y, es).txn.Some?
    decreases |es|
  {
    hide Step;
    if es != [] {
      QuietCfgStep(y, es[0], orc);
      QuietCfg(Step(y, es[0]), es[1..], orc);
    }
  }

  lemma QuietCfgStep(y: System, e: Event, orc: Oracle)
    requires y.txn.Some? && Quiet(orc, e)
    ensures Step(y, e).cfg == y.cfg && Step(y, e).txn.Some?
  {
    hide StepVolume, StepAttachment;
    if !e.VolumeTurn? && !e.AttachmentTurn? { NodesStayOut(y, e); }
  }

  lemma ReachableIsCalm(y: System, k: string)
    requires Inv(y) && AllExplained(y) && y.txn.None? && k in y.platform.volumes && k !in y.drifted
    ensures Calm(y.cfg, View(y.platform, y.cloud), k, y.drifted)
  {
    hide PlatformOk, NodesFit;
    assert VolumeExplained(y.platform.volumes[k], false);
  }

  /** One reconcile run whose provider calls succeed, over a volume whose disk nothing outside has touched: the volume
      ends as its owner asked, and so does every live attachment of it. */
  lemma ReconcileConverges(y0: System, before: seq<Event>, es: seq<Event>, k: string)
    requires Init(y0) && Run(y0, before).txn.None? && forall n :: 0 <= n < |es| ==> Quiet(CALM, es[n])
    requires var y := Run(y0, before);
             k in y.platform.volumes && k !in y.drifted && Step(Run(Step(y, Open), es), Commit).txn.None?
    ensures var y := Run(y0, before);
            var z := Step(Run(Step(y, Open), es), Commit);
            && k in z.platform.volumes && Settled(z.platform.volumes[k], Look(z.cloud, k))
            && z.platform.volumes[k].desired == y.platform.volumes[k].desired
            && z.platform.volumes[k].deleteRequested == y.platform.volumes[k].deleteRequested
            && (forall x :: IsLiveOn(y.platform, k, x) ==>
                  var a := y.platform.attachments[x];
                  x in z.platform.attachments
                  && Arrived(a, InstanceActive(y.cfg, a.link.instance), z.platform.attachments[x], Look(z.cloud, k)))
  {
    hide Init, Run, PlatformOk, Step, NodesFit, Backed, Shadows, Midway, Settled, Arrived, Quiet, AllExplained, Calm;
    InitHolds(y0);
    RunKeeps(y0, before);
    ErrorsAreExplained(y0, before);
    var y := Run(y0, before);
    var w := View(y.platform, y.cloud);
    CommittedRun(y, es, CALM);
    ReachableIsCalm(y, k);
    VolumesSettle(y.cfg, w, k, y.drifted);
    forall x | IsLiveOn(y.platform, k, x)
      ensures var z := Reconciled(y.cfg, w, CALM);
              x in z.platform.attachments
              && Arrived(y.platform.attachments[x], InstanceActive(y.cfg, y.platform.attachments[x].link.instance),
                         z.platform.attachments[x], Look(z.cloud, k))
    {
      AttachmentsArrive(y.cfg, w, x, y.drifted);
    }
  }
}
