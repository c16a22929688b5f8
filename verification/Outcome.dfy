/** What a committed reconcile reports and does, whatever faults it met and whatever drift came before it: an error is
    recorded exactly when something is wrong, and says what. */
module Outcome {
  import opened Model
  import opened Provider
  import opened Calls
  import opened Invariants
  import opened Reconciling
  import opened Passes
  import opened Replay
  import opened NodeCalls
  import opened Backing
  import opened Systems
  import opened SystemInvariant
  import opened Convergence
  import opened Controllers
  import opened Acceptance

  // ----- volumes -----

  function Bytes(d: Option<Disk>): Option<int> { if d.Some? then Some(d.value.size) else None }

  /** What becomes of volume `v` with disk `d` when its two provider calls meet the faults `f`. */
  predicate VolumeReport(k: string, v: Volume, d: Option<Disk>, f: Faults, w: Volume, e: Option<Disk>) {
    if v.state == DELETED then w == v && e == None
    else if v.deleteRequested then
      // gone and known to be, or the failure is on record
      if f.call.Fine? then w == v.(state := DELETED, lastError := Clear) && e == None
      else w == v.(lastError := Failed(f.call.text)) && Bytes(e) == if f.call.Before? then Bytes(d) else None
    else if !f.get.Fine? then
      w == v.(lastError := Failed(f.get.text)) && Bytes(e) == Bytes(d)
    else if d == None && v.state != CREATING then
      // data is lost: it is reported, and nothing is made in its place
      w == v.(lastError := DiskGone) && e == None
    else if Bytes(d) == Some(v.desired) || f.call.Fine? then
      && w == v.(state := AVAILABLE, size := v.desired, deviceKey := DeviceKeyOf(k), lastError := Clear)
      && Bytes(e) == Some(v.desired)
    else
      && w == v.(lastError := Failed(f.call.text))
      && Bytes(e) == if f.call.Before? then Bytes(d) else Some(v.desired)
  }

  lemma VolumeItemReports(k: string, v: Volume, busy: bool, d: Option<Disk>, f: Faults)
    requires VolumeOk(k, v) && DeviceOk(k, v) && v.size <= v.desired
    requires d.Some? ==> v.state != DELETED && d.value.deviceKey == DeviceKeyOf(k) && d.value.size <= v.desired
    requires d.Some? && d.value.instance != "" ==> busy
    requires busy ==> Serving(v)
    ensures var o := VolumeItem(v, busy, d, f);
            && VolumeReport(k, v, d, f, o.volume, o.disk)
            && (d.Some? && o.disk.Some? ==> HeldBy(o.disk.value, d.value.instance, d.value.attachment))
            && (d == None && o.disk.Some? ==> v.state == CREATING)
  {
  }

  // ----- attachments -----

  function Holder(d: Option<Disk>): Option<(string, string)> {
    if d.Some? then Some((d.value.instance, d.value.attachment)) else None
  }

  /** What becomes of live attachment `a` of a volume with disk `d` and, by now, error `trouble`. */
  predicate AttachmentReport(a: Attachment, active: bool, trouble: Trouble, d: Option<Disk>, f: Faults, b: Attachment,
                             e: Option<Disk>) {
    if a.deleteRequested then
      if a.uses != {} then b == a.(lastError := Clear) && Holder(e) == Holder(d)
      else if f.call.Fine? then b == a.(state := DETACHED, lastError := Clear) && !AttachedBy(e, a)
      else
        && b == a.(lastError := Failed(f.call.text))
        && (if f.call.Before? then Holder(e) == Holder(d) else !AttachedBy(e, a))
    else if !active then b == a.(lastError := Fencing) && Holder(e) == Holder(d)
    else if !f.get.Fine? then b == a.(lastError := Failed(f.get.text)) && Holder(e) == Holder(d)
    else if a.state == ATTACHED && a.uses != {} && Holder(d) != Some((a.link.instance, a.id)) then
      // the disk was taken from under a user: it is reported, and nothing is attached behind the user's back
      b == a.(lastError := Drifted) && Holder(e) == Holder(d)
    else if trouble != Clear then b == a.(lastError := Clear) && Holder(e) == Holder(d)
    else if f.call.Fine? then b == a.(state := ATTACHED, lastError := Clear)
        && Holder(e) == Some((a.link.instance, a.id))
    else
      && b == a.(lastError := Failed(f.call.text))
      && Holder(e) == if f.call.Before? then Holder(d) else Some((a.link.instance, a.id))
  }

  lemma AttachmentItemReports(a: Attachment, active: bool, trouble: Trouble, d: Option<Disk>, f: Faults)
    requires Live(a) && a.link.instance != ""
    requires a.deleteRequested <==> a.state == DETACHING || a.state == DETACHED
    requires d.Some? && d.value.instance != "" ==> AttachedBy(d, a)
    requires trouble == Clear ==> d.Some?
    ensures var o := AttachmentItem(a, active, trouble, d, f);
            && AttachmentReport(a, active, trouble, d, f, o.attachment, o.disk)
            && Bytes(o.disk) == Bytes(d)
  {
  }

  lemma SameHolder(a: Attachment, active: bool, trouble: Trouble, d: Option<Disk>, c: Option<Disk>, f: Faults,
                   b: Attachment, e: Option<Disk>)
    requires Holder(c) == Holder(d) && AttachmentReport(a, active, trouble, c, f, b, e)
    ensures AttachmentReport(a, active, trouble, d, f, b, e)
  {
  }

  // ----- whatever the cloud may hold -----

  /** A disk of another identity is never taken for the volume's own: the record keeps its device, size and state, and
      says that something is wrong. */
  lemma ForeignDeviceIsNotAdopted(v: Volume, busy: bool, d: Disk, f: Faults)
    requires !v.deleteRequested && v.state != DELETED && v.deviceKey != "" && d.deviceKey != v.deviceKey
    ensures var w := VolumeItem(v, busy, Some(d), f).volume;
            w == v.(lastError := w.lastError) && w.lastError != Clear
  {
  }

  /** A disk that is attached to anything is not deleted, and the volume is not reported as deleted. */
  lemma AttachedDiskIsNotDeleted(v: Volume, busy: bool, d: Disk, f: Faults)
    requires d.instance != "" && v.state != DELETED
    ensures var o := VolumeItem(v, busy, Some(d), f);
            o.disk.Some? && o.volume.state != DELETED && HeldBy(o.disk.value, d.instance, d.attachment)
  {
  }

  /** A disk that somebody else holds is neither attached nor detached on this attachment's behalf. */
  lemma ForeignHolderIsLeftAlone(a: Attachment, active: bool, trouble: Trouble, d: Disk, f: Faults)
    requires Live(a) && d.instance != "" && (d.instance != a.link.instance || d.attachment != a.id)
    ensures var o := AttachmentItem(a, active, trouble, Some(d), f);
            && o.disk == Some(d) && o.attachment == a.(lastError := o.attachment.lastError)
            && (a.deleteRequested && a.uses == {} ==> o.attachment.lastError != Clear)
            && (!a.deleteRequested && trouble == Clear ==> o.attachment.lastError != Clear)
  {
  }

  // ----- one cell, drift or not -----

  ghost predicate Accounted(cfg: Config, w: View, drifted: set<string>) {
    ConfigOk(cfg) && Sound(cfg, w.platform) && Backed(w.platform, w.cloud, drifted)
  }

  lemma CellSound(cfg: Config, w: View, k: string, drifted: set<string>)
    requires Accounted(cfg, w, drifted) && k in w.platform.volumes
    ensures var c := CellOf(w, k);
            && c.volume == w.platform.volumes[k] && c.disk == Look(w.cloud, k)
            && VolumeOk(k, c.volume) && DeviceOk(k, c.volume) && c.volume.size <= c.volume.desired
            && (CellBusy(c) <==> Busy(w.platform, k)) && (c.attachment.Some? <==> CellBusy(c))
            && (c.disk.Some? ==>
                 && c.volume.state != DELETED
                 && c.disk.value.deviceKey == DeviceKeyOf(k) && c.disk.value.size <= c.volume.desired)
            && (c.disk.Some? && c.disk.value.instance != "" ==> CellBusy(c))
            && (CellBusy(c) ==> Serving(c.volume))
            && (CellBusy(c) ==>
                 var a := c.attachment.value;
                 && a.link.instance != "" && (a.deleteRequested <==> a.state == DETACHING || a.state == DETACHED)
                 && (c.disk.Some? && c.disk.value.instance != "" ==> AttachedBy(c.disk, a)))
  {
    hide PlatformOk;
    var s, disk := w.platform, Look(w.cloud, k);
    assert Backs(s, k, disk, drifted);
    VolumeFacts(cfg, s, k);
    if Busy(s, k) {
      var x := LiveOn(s, k).value;
      AttachmentFacts(cfg, s, x, disk, drifted);
    }
    if disk.Some? && disk.value.instance != "" { assert IsLiveOn(s, k, disk.value.attachment); }
  }

  /** Whoever commits a reconcile leaves every volume as reported. */
  lemma VolumeReported(cfg: Config, w: View, orc: Oracle, k: string, drifted: set<string>)
    requires Accounted(cfg, w, drifted) && k in w.platform.volumes
    ensures var z := Reconciled(cfg, w, orc);
            && k in z.platform.volumes
            && VolumeReport(k, w.platform.volumes[k], Look(w.cloud, k), orc.volumes(k), z.platform.volumes[k],
                Look(z.cloud, k))
  {
    hide VolumeItem, AttachmentItem, Midway, CellAt, CellOf, Accounted, VolumeOk, DeviceOk;
    var c := CellOf(w, k);
    var active, fa := ActiveFor(cfg, w.platform, k), FaultsFor(orc, w.platform, k);
    CellSound(cfg, w, k, drifted);
    RecordedCell(cfg, w, orc, k);
    FullCell(cfg, w, orc, k);
    VolumeItemReports(k, c.volume, CellBusy(c), c.disk, orc.volumes(k));
    var m := PassVolume(c, orc.volumes(k));
    if CellBusy(c) {
      AttachmentItemFrame(c.attachment.value, active, m.volume.lastError, m.disk, fa);
      SizeReport(k, c.volume, c.disk, orc.volumes(k), m.volume, m.disk, PassAttachment(m, active, fa).disk);
    }
  }

  lemma SizeReport(k: string, v: Volume, d: Option<Disk>, f: Faults, w: Volume, e: Option<Disk>, e': Option<Disk>)
    requires VolumeReport(k, v, d, f, w, e) && Bytes(e') == Bytes(e)
    ensures VolumeReport(k, v, d, f, w, e')
  {
  }

  /** A report without an error means that the disk is there. */
  lemma NoTroubleNoLoss(k: string, v: Volume, d: Option<Disk>, f: Faults, w: Volume, e: Option<Disk>)
    requires VolumeReport(k, v, d, f, w, e) && !v.deleteRequested && v.state != DELETED && w.lastError == Clear
    ensures e.Some?
  {
  }

  /** And every attachment that was live. */
  lemma AttachmentReported(cfg: Config, w: View, orc: Oracle, x: string, drifted: set<string>)
    requires Accounted(cfg, w, drifted) && x in w.platform.attachments && Live(w.platform.attachments[x])
    ensures var z, a := Reconciled(cfg, w, orc), w.platform.attachments[x];
            var k := a.link.volume;
            && k in z.platform.volumes && x in z.platform.attachments
            && AttachmentReport(a, InstanceActive(cfg, a.link.instance), z.platform.volumes[k].lastError,
                Look(w.cloud, k),
                                orc.attachments(x), z.platform.attachments[x], Look(z.cloud, k))
  {
    hide PlatformOk, VolumeItem, AttachmentItem, Midway, CellAt, VolumeOk, DeviceOk, VolumeReport, AttachmentReport;
    var a := w.platform.attachments[x];
    var k := a.link.volume;
    LiveIsLiveOn(cfg, w.platform, x);
    var c, f, active := CellOf(w, k), orc.attachments(x), InstanceActive(cfg, a.link.instance);
    CellSound(cfg, w, k, drifted);
    hide Accounted;
    VolumeItemReports(k, c.volume, true, c.disk, orc.volumes(k));
    var m := PassVolume(c, orc.volumes(k));
    if m.volume.lastError == Clear {
      ServingIsKept(k, c.volume);
      NoTroubleNoLoss(k, c.volume, c.disk, orc.volumes(k), m.volume, m.disk);
    }
    DisksBothThere(k, c.volume, c.disk, orc.volumes(k));
    AttachmentItemReports(a, active, m.volume.lastError, m.disk, f);
    var e := AttachmentItem(a, active, m.volume.lastError, m.disk, f);
    SameHolder(a, active, m.volume.lastError, c.disk, m.disk, f, e.attachment, e.disk);
    assert c.attachment == Some(a) && CellBusy(c);
    assert RunCell(c, active, orc.volumes(k), f) == Cell(m.volume, Some(e.attachment), e.disk);
    DeadStaysPut(cfg, w, orc, x);
    FullAttachment(cfg, w, orc, x);
    FullCell(cfg, w, orc, k);
    RecordedCell(cfg, w, orc, k);
  }

  lemma ServingIsKept(k: string, v: Volume)
    requires VolumeOk(k, v) && Serving(v)
    ensures !v.deleteRequested && v.state != DELETED
  {
  }

  /** The volume pass neither makes nor loses the disk of a volume that serves. */
  lemma DisksBothThere(k: string, v: Volume, d: Option<Disk>, f: Faults)
    requires VolumeOk(k, v) && Serving(v)
    ensures var o := VolumeItem(v, true, d, f); Holder(o.disk) == Holder(d)
  {
  }

  // ----- over events -----

  lemma AccountedFor(y: System)
    requires Inv(y) && y.txn.None?
    ensures Accounted(y.cfg, View(y.platform, y.cloud), y.drifted)
  {
    hide Sound, Backed, NodesFit, Shadows;
  }

  /** The reconcile run of these events, from opening its transaction to committing it, with nodes busy in between. */
  ghost predicate Commits(y: System, es: seq<Event>, orc: Oracle) {
    && y.txn.None? && (forall n :: 0 <= n < |es| ==> Quiet(orc, es[n]))
    && Step(Run(Step(y, Open), es), Commit).txn.None?
  }

  ghost function AfterCommit(y: System, es: seq<Event>): System { Step(Run(Step(y, Open), es), Commit) }

  /** In every reachable state, after drift or not, and whatever faults the provider calls meet: a committed reconcile
      leaves every volume as reported. */
  lemma VolumeOutcome(y: System, es: seq<Event>, orc: Oracle, k: string)
    requires Inv(y) && Commits(y, es, orc) && k in y.platform.volumes
    ensures var z := AfterCommit(y, es);
            && k in z.platform.volumes
            && VolumeReport(k, y.platform.volumes[k], Look(y.cloud, k), orc.volumes(k), z.platform.volumes[k],
                Look(z.cloud, k))
  {
    hide Inv, Run, Step, Quiet, Accounted, VolumeReport, Midway;
    AccountedFor(y);
    CommittedRun(y, es, orc);
    VolumeReported(y.cfg, View(y.platform, y.cloud), orc, k, y.drifted);
  }

  /** And every attachment that was live when it began. */
  lemma AttachmentOutcome(y: System, es: seq<Event>, orc: Oracle, x: string)
    requires Inv(y) && Commits(y, es, orc) && x in y.platform.attachments && Live(y.platform.attachments[x])
    ensures var z, a := AfterCommit(y, es), y.platform.attachments[x];
            var k := a.link.volume;
            && k in z.platform.volumes && x in z.platform.attachments
            && AttachmentReport(a, a.link.instance in y.cfg.instances && y.cfg.instances[a.link.instance].active,
                z.platform.volumes[k].lastError, Look(y.cloud, k),
                                orc.attachments(x), z.platform.attachments[x], Look(z.cloud, k))
  {
    hide Inv, Run, Step, Quiet, Accounted, AttachmentReport, Midway;
    AccountedFor(y);
    CommittedRun(y, es, orc);
    AttachmentReported(y.cfg, View(y.platform, y.cloud), orc, x, y.drifted);
  }

  /** After a committed reconcile whose provider calls worked, a volume that is not to be deleted is free of error if
      and only if its disk is there. */
  lemma ClearMeansThere(y: System, es: seq<Event>, k: string)
    requires Inv(y) && Commits(y, es, CALM) && k in y.platform.volumes && !y.platform.volumes[k].deleteRequested
    ensures var z := AfterCommit(y, es);
            && k in z.platform.volumes
            && (z.platform.volumes[k].lastError == Clear <==> k in z.cloud)
            && (z.platform.volumes[k].lastError != Clear ==> z.platform.volumes[k].lastError == DiskGone)
  {
    hide Inv, Run, Step;
    VolumeOutcome(y, es, CALM, k);
    OnlyDeletedIsDeleted(y, k);
  }

  lemma OnlyDeletedIsDeleted(y: System, k: string)
    requires Inv(y) && k in y.platform.volumes && !y.platform.volumes[k].deleteRequested
    ensures y.platform.volumes[k].state != DELETED
  {
    hide AttachmentsOk, GenerationsDistinct, NamesUnique, NodesFit, Backed, Shadows;
    assert VolumeOk(k, y.platform.volumes[k]);
  }

  /** A created volume whose disk has gone is reported as lost: it is not answered as created, and nobody can attach
      it. */
  lemma LossIsReported(y: System, es: seq<Event>, k: string, p: Principal, r: Request, newID: string)
    requires Inv(y) && Commits(y, es, CALM) && k in y.platform.volumes && k !in y.cloud
    requires y.platform.volumes[k].state != CREATING && !y.platform.volumes[k].deleteRequested && p.role == "controller"
    ensures var z := AfterCommit(y, es);
            && k in z.platform.volumes && z.platform.volumes[k].lastError == DiskGone && k !in z.cloud
            && (Apply(z.cfg, p, CreateVolume, r, newID, z.platform).reply.Done? && SameName(p, r, z.platform.volumes[k])
                ==> CreateReply(Apply(z.cfg, p, CreateVolume, r, newID, z.platform).reply) == Failure(Aborted))
            && (r.volume == k ==> Apply(z.cfg, p, CreateAttachment, r, newID, z.platform).reply.Rejected?)
  {
    hide Inv, Run, Step, Apply, SameName, MayCreate;
    var z := AfterCommit(y, es);
    VolumeOutcome(y, es, CALM, k);
    OnlyDeletedIsDeleted(y, k);
    StepKeeps(y, Open);
    RunKeeps(Step(y, Open), es);
    StepKeeps(Run(Step(y, Open), es), Commit);
    PlatformIsOk(z);
    if r.volume == k { AttachAcceptedIff(z.cfg, p, r, newID, z.platform); }
    if Apply(z.cfg, p, CreateVolume, r, newID, z.platform).reply.Done? {
      CreateAcceptedIff(z.cfg, p, r, newID, z.platform);
      if SameName(p, r, z.platform.volumes[k]) { ShowsThatOne(z.cfg, p, r, newID, z.platform, k); }
    }
  }

  lemma PlatformIsOk(y: System)
    requires Inv(y)
    ensures ConfigOk(y.cfg) && PlatformOk(y.cfg, y.platform)
  {
    hide PlatformOk, NodesFit, Backed, Shadows;
  }

  lemma ShowsThatOne(cfg: Config, p: Principal, r: Request, newID: string, s: Platform, k: string)
    requires PlatformOk(cfg, s) && p.role == "controller" && MayCreate(cfg, p, r, s) && k in s.volumes
    requires SameName(p, r, s.volumes[k])
    ensures Apply(cfg, p, CreateVolume, r, newID, s).reply == Done(Some(s.volumes[k]), None, None)
  {
    hide PlatformOk, Apply, SameName, MayCreate;
    CreateEffect(cfg, p, r, newID, s);
  }
}
