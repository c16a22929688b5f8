/** A whole reconcile run, over all volumes and then all attachments, as one closed form. The form says for every
    volume how far the run has come, so it mentions no order. */
module Passes {
  import opened Model
  import opened Provider
  import opened Calls
  import opened Invariants
  import opened Reconciling

  /** Which faults each item would meet. Texts and moments are arbitrary. */
  datatype Oracle = Oracle(volumes: string -> Faults, attachments: string -> Faults)

  const CALM := Oracle((k: string) => NO_FAULTS, (x: string) => NO_FAULTS)

  /** What a reconcile transaction sees: its own copy of the platform, and the cloud. */
  datatype View = View(platform: Platform, cloud: Cloud)

  predicate InstanceActive(cfg: Config, id: string) {
    id in cfg.instances && cfg.instances[id].active
  }

  ghost function LiveRecord(s: Platform, k: string): Option<Attachment> {
    var x := LiveOn(s, k);
    if x.Some? then Some(s.attachments[x.value]) else None
  }

  ghost function CellOf(w: View, k: string): Cell
    requires k in w.platform.volumes
  {
    Cell(w.platform.volumes[k], LiveRecord(w.platform, k), Look(w.cloud, k))
  }

  /** The items done so far: a set of volumes, then a set of attachments. */
  datatype Items = Items(volumes: set<string>, attachments: set<string>)

  ghost function ProgressOf(s: Platform, done: Items, k: string): Progress {
    if k !in done.volumes then Untouched
    else if Busy(s, k) && LiveOn(s, k).value in done.attachments then BothDone
    else VolumeDone
  }

  /** The cell of volume `k` after `how` much of a run that started at `w`. */
  ghost function CellAfter(cfg: Config, w: View, orc: Oracle, how: Progress, k: string): Cell
    requires k in w.platform.volumes
  {
    var x := LiveOn(w.platform, k);
    var active := x.Some? && InstanceActive(cfg, w.platform.attachments[x.value].link.instance);
    var fa := if x.Some? then orc.attachments(x.value) else NO_FAULTS;
    Partly(CellOf(w, k), active, orc.volumes(k), fa, how)
  }

  ghost function CellAt(cfg: Config, w: View, orc: Oracle, done: Items, k: string): Cell
    requires k in w.platform.volumes
  {
    CellAfter(cfg, w, orc, ProgressOf(w.platform, done, k), k)
  }

  ghost function VolumesAt(cfg: Config, w: View, orc: Oracle, done: Items): map<string, Volume> {
    map k | k in w.platform.volumes :: CellAt(cfg, w, orc, done, k).volume
  }

  ghost function AttachmentAt(cfg: Config, w: View, orc: Oracle, done: Items, x: string): Attachment
    requires x in w.platform.attachments
  {
    var a := w.platform.attachments[x];
    if Live(a) && a.link.volume in w.platform.volumes then
      var c := CellAt(cfg, w, orc, done, a.link.volume);
      if c.attachment.Some? then c.attachment.value else a
    else a
  }

  ghost function AttachmentsAt(cfg: Config, w: View, orc: Oracle, done: Items): map<string, Attachment> {
    map x | x in w.platform.attachments :: AttachmentAt(cfg, w, orc, done, x)
  }

  ghost function DiskAt(cfg: Config, w: View, orc: Oracle, done: Items, k: string): Option<Disk> {
    if k in w.platform.volumes then CellAt(cfg, w, orc, done, k).disk else Look(w.cloud, k)
  }

  ghost function CloudAt(cfg: Config, w: View, orc: Oracle, done: Items): Cloud {
    map k | k in w.platform.volumes.Keys + w.cloud.Keys && DiskAt(cfg, w, orc, done, k).Some?
      :: DiskAt(cfg, w, orc, done, k).value
  }

  /** What the transaction sees once exactly the items of `done` have been processed, in whatever order. */
  ghost function Midway(cfg: Config, w: View, orc: Oracle, done: Items): View {
    View(Platform(VolumesAt(cfg, w, orc, done), AttachmentsAt(cfg, w, orc, done)), CloudAt(cfg, w, orc, done))
  }

  ghost function AllItems(s: Platform): Items { Items(s.volumes.Keys, s.attachments.Keys) }

  /** What a complete run leaves. */
  ghost function Reconciled(cfg: Config, w: View, orc: Oracle): View {
    Midway(cfg, w, orc, AllItems(w.platform))
  }

  // ----- one item at a time -----

  ghost function VolumeStepAt(w: View, k: string, f: Faults): VolumeStep
    requires k in w.platform.volumes
  {
    VolumeItem(w.platform.volumes[k], Busy(w.platform, k), Look(w.cloud, k), f)
  }

  /** The volume loop's body. */
  ghost function StepVolume(w: View, k: string, f: Faults): View
    requires k in w.platform.volumes
  {
    var o := VolumeStepAt(w, k, f);
    View(w.platform.(volumes := w.platform.volumes[k := o.volume]), Put(w.cloud, k, o.disk))
  }

  function AttachmentStepAt(cfg: Config, w: View, x: string, f: Faults): AttachmentStep
    requires x in w.platform.attachments && w.platform.attachments[x].link.volume in w.platform.volumes
  {
    var a := w.platform.attachments[x];
    AttachmentItem(a, InstanceActive(cfg, a.link.instance), w.platform.volumes[a.link.volume].lastError,
                   Look(w.cloud, a.link.volume), f)
  }

  /** The attachment loop's body. */
  function StepAttachment(cfg: Config, w: View, x: string, f: Faults): View
    requires x in w.platform.attachments && w.platform.attachments[x].link.volume in w.platform.volumes
  {
    var o := AttachmentStepAt(cfg, w, x, f);
    View(WithAttachment(w.platform, x, o.attachment), Put(w.cloud, w.platform.attachments[x].link.volume, o.disk))
  }

  lemma LiveIsLiveOn(cfg: Config, s: Platform, x: string)
    requires PlatformOk(cfg, s) && x in s.attachments && Live(s.attachments[x])
    ensures s.attachments[x].link.volume in s.volumes
    ensures LiveOn(s, s.attachments[x].link.volume) == Some(x)
  {
    assert AttachmentOk(cfg, s, x, s.attachments[x]);
    assert IsLiveOn(s, s.attachments[x].link.volume, x);
    var y := LiveOn(s, s.attachments[x].link.volume).value;
    AtMostOneLive(cfg, s, x, y);
  }

  lemma NothingDone(cfg: Config, w: View, orc: Oracle)
    requires PlatformOk(cfg, w.platform)
    ensures Midway(cfg, w, orc, Items({}, {})) == w
  {
    var none := Items({}, {});
    assert VolumesAt(cfg, w, orc, none) == w.platform.volumes;
    NoAttachmentYet(cfg, w, orc, {});
    CloudUntouched(cfg, w, orc);
  }

  lemma CloudUntouched(cfg: Config, w: View, orc: Oracle)
    ensures CloudAt(cfg, w, orc, Items({}, {})) == w.cloud
  {
    var none := Items({}, {});
    forall k ensures DiskAt(cfg, w, orc, none, k) == Look(w.cloud, k) {
    }
  }

  lemma NoAttachmentYet(cfg: Config, w: View, orc: Oracle, done: set<string>)
    requires PlatformOk(cfg, w.platform)
    ensures AttachmentsAt(cfg, w, orc, Items(done, {})) == w.platform.attachments
  {
    forall x | x in w.platform.attachments
      ensures AttachmentAt(cfg, w, orc, Items(done, {}), x) == w.platform.attachments[x]
    {
      if Live(w.platform.attachments[x]) { LiveIsLiveOn(cfg, w.platform, x); }
    }
  }

  /** Volumes whose progress is the same under two sets of items have the same cell under both. */
  lemma CloudDiffersAt(cfg: Config, w: View, orc: Oracle, d: Items, e: Items, k: string)
    requires k in w.platform.volumes
    requires forall j :: j != k ==> ProgressOf(w.platform, d, j) == ProgressOf(w.platform, e, j)
    ensures CloudAt(cfg, w, orc, e) == Put(CloudAt(cfg, w, orc, d), k, DiskAt(cfg, w, orc, e, k))
  {
    forall j | j != k ensures DiskAt(cfg, w, orc, e, j) == DiskAt(cfg, w, orc, d, j) {
    }
    assert DiskAt(cfg, w, orc, e, k).Some? ==> k in CloudAt(cfg, w, orc, e);
  }

  lemma VolumesDifferAt(cfg: Config, w: View, orc: Oracle, d: Items, e: Items, k: string)
    requires k in w.platform.volumes
    requires forall j :: j != k ==> ProgressOf(w.platform, d, j) == ProgressOf(w.platform, e, j)
    ensures VolumesAt(cfg, w, orc, e) == VolumesAt(cfg, w, orc, d)[k := CellAt(cfg, w, orc, e, k).volume]
  {
    forall j | j in w.platform.volumes && j != k ensures CellAt(cfg, w, orc, e, j) == CellAt(cfg, w, orc, d, j) {
    }
  }

  lemma LookCloudAt(cfg: Config, w: View, orc: Oracle, done: Items, k: string)
    ensures Look(CloudAt(cfg, w, orc, done), k) == DiskAt(cfg, w, orc, done, k)
  {
  }

  lemma BusyAlike(s: Platform, t: Platform, k: string)
    requires s.attachments == t.attachments
    ensures Busy(s, k) == Busy(t, k)
  {
    assert forall x :: IsLiveOn(s, k, x) == IsLiveOn(t, k, x);
  }

  /** The volume loop, taking any volume next, arrives at the closed form with that volume added. */
  lemma VolumeAdvances(cfg: Config, w: View, orc: Oracle, done: set<string>, k: string)
    requires PlatformOk(cfg, w.platform) && k in w.platform.volumes && k !in done
    ensures StepVolume(Midway(cfg, w, orc, Items(done, {})), k, orc.volumes(k))
         == Midway(cfg, w, orc, Items(done + {k}, {}))
  {
    var d, e := Items(done, {}), Items(done + {k}, {});
    var m := Midway(cfg, w, orc, d);
    NoAttachmentYet(cfg, w, orc, done);
    NoAttachmentYet(cfg, w, orc, done + {k});
    BusyAlike(w.platform, m.platform, k);
    LookCloudAt(cfg, w, orc, d, k);
    CloudDiffersAt(cfg, w, orc, d, e, k);
    VolumesDifferAt(cfg, w, orc, d, e, k);
    assert CellAt(cfg, w, orc, d, k) == CellOf(w, k);
    assert CellAt(cfg, w, orc, e, k) == PassVolume(CellOf(w, k), orc.volumes(k));
  }

  lemma AttachmentsDifferAt(cfg: Config, w: View, orc: Oracle, d: Items, e: Items, x: string)
    requires PlatformOk(cfg, w.platform) && x in w.platform.attachments && Live(w.platform.attachments[x])
    requires var k := w.platform.attachments[x].link.volume;
             forall j :: j != k ==> ProgressOf(w.platform, d, j) == ProgressOf(w.platform, e, j)
    ensures AttachmentsAt(cfg, w, orc, e) == AttachmentsAt(cfg, w, orc, d)[x := AttachmentAt(cfg, w, orc, e, x)]
  {
    forall y | y in w.platform.attachments && y != x
      ensures AttachmentAt(cfg, w, orc, e, y) == AttachmentAt(cfg, w, orc, d, y)
    {
      if Live(w.platform.attachments[y]) {
        LiveIsLiveOn(cfg, w.platform, x);
        LiveIsLiveOn(cfg, w.platform, y);
      }
    }
  }

  lemma SameProgress(cfg: Config, w: View, orc: Oracle, d: Items, e: Items)
    requires forall k :: ProgressOf(w.platform, d, k) == ProgressOf(w.platform, e, k)
    ensures Midway(cfg, w, orc, d) == Midway(cfg, w, orc, e)
  {
    forall k | k in w.platform.volumes ensures CellAt(cfg, w, orc, d, k) == CellAt(cfg, w, orc, e, k) {
    }
    assert VolumesAt(cfg, w, orc, d) == VolumesAt(cfg, w, orc, e);
    assert AttachmentsAt(cfg, w, orc, d) == AttachmentsAt(cfg, w, orc, e);
    assert CloudAt(cfg, w, orc, d) == CloudAt(cfg, w, orc, e);
  }

  lemma PutBack(c: Cloud, k: string)
    ensures Put(c, k, Look(c, k)) == c
  {
  }

  lemma MidwayAttachment(cfg: Config, w: View, orc: Oracle, done: Items, x: string)
    requires PlatformOk(cfg, w.platform) && x in w.platform.attachments && x !in done.attachments
    ensures var a, m := w.platform.attachments[x], Midway(cfg, w, orc, done).platform;
            && x in m.attachments && m.attachments[x] == a
            && a.link.volume in w.platform.volumes && a.link.volume in m.volumes
            && m.volumes[a.link.volume] == CellAt(cfg, w, orc, done, a.link.volume).volume
  {
    assert AttachmentOk(cfg, w.platform, x, w.platform.attachments[x]);
    if Live(w.platform.attachments[x]) { LiveIsLiveOn(cfg, w.platform, x); }
  }

  lemma DeadAdvances(cfg: Config, w: View, orc: Oracle, d: Items, e: Items, x: string, m: View)
    requires PlatformOk(cfg, w.platform) && x in w.platform.attachments && !Live(w.platform.attachments[x])
    requires x !in d.attachments && e == Items(d.volumes, d.attachments + {x}) && m == Midway(cfg, w, orc, d)
    requires x in m.platform.attachments && m.platform.attachments[x] == w.platform.attachments[x]
    requires m.platform.attachments[x].link.volume in m.platform.volumes
    ensures StepAttachment(cfg, m, x, orc.attachments(x)) == Midway(cfg, w, orc, e)
  {
    hide PlatformOk, CellAt, ProgressOf;
    ProgressElsewhere(cfg, w.platform, d, e, x);
    SameProgress(cfg, w, orc, d, e);
    PutBack(m.cloud, w.platform.attachments[x].link.volume);
    assert WithAttachment(m.platform, x, m.platform.attachments[x]) == m.platform;
  }

  /** What the attachment loop's body does to the cell of the attachment's volume. */
  lemma LiveCell(cfg: Config, w: View, orc: Oracle, d: Items, e: Items, x: string)
    requires PlatformOk(cfg, w.platform) && x in w.platform.attachments && Live(w.platform.attachments[x])
    requires d.volumes == w.platform.volumes.Keys
    requires x !in d.attachments && e == Items(d.volumes, d.attachments + {x})
    ensures var a := w.platform.attachments[x];
            var k := a.link.volume;
            && k in w.platform.volumes
            && CellAt(cfg, w, orc, d, k).attachment == Some(a)
            && CellAt(cfg, w, orc, e, k)
            == PassAttachment(CellAt(cfg, w, orc, d, k), InstanceActive(cfg, a.link.instance), orc.attachments(x))
            && AttachmentAt(cfg, w, orc, e, x) == CellAt(cfg, w, orc, e, k).attachment.value
  {
    var a := w.platform.attachments[x];
    var k := a.link.volume;
    LiveIsLiveOn(cfg, w.platform, x);
    assert CellAt(cfg, w, orc, d, k) == PassVolume(CellOf(w, k), orc.volumes(k));
  }

  lemma LiveAdvances(cfg: Config, w: View, orc: Oracle, d: Items, e: Items, x: string, m: View)
    requires PlatformOk(cfg, w.platform) && x in w.platform.attachments && Live(w.platform.attachments[x])
    requires d.volumes == w.platform.volumes.Keys
    requires x !in d.attachments && e == Items(d.volumes, d.attachments + {x}) && m == Midway(cfg, w, orc, d)
    requires x in m.platform.attachments && m.platform.attachments[x] == w.platform.attachments[x]
    requires m.platform.attachments[x].link.volume in m.platform.volumes
    ensures StepAttachment(cfg, m, x, orc.attachments(x)) == Midway(cfg, w, orc, e)
  {
    hide PlatformOk, CellAt, AttachmentItem, ProgressOf;
    var a := w.platform.attachments[x];
    var k := a.link.volume;
    LiveCell(cfg, w, orc, d, e, x);
    ProgressElsewhere(cfg, w.platform, d, e, x);
    LookCloudAt(cfg, w, orc, d, k);
    CloudDiffersAt(cfg, w, orc, d, e, k);
    AttachmentsDifferAt(cfg, w, orc, d, e, x);
    VolumesDifferAt(cfg, w, orc, d, e, k);
    assert VolumesAt(cfg, w, orc, e) == m.platform.volumes;
  }

  /** The attachment loop, taking any attachment next, arrives at the closed form with it added. This is where one
      live attachment per volume matters: no two items share a disk. */
  lemma AttachmentAdvances(cfg: Config, w: View, orc: Oracle, done: set<string>, x: string, m: View)
    requires PlatformOk(cfg, w.platform) && x in w.platform.attachments && x !in done
    requires m == Midway(cfg, w, orc, Items(w.platform.volumes.Keys, done))
    ensures x in m.platform.attachments && m.platform.attachments[x].link.volume in m.platform.volumes
    ensures StepAttachment(cfg, m, x, orc.attachments(x))
         == Midway(cfg, w, orc, Items(w.platform.volumes.Keys, done + {x}))
  {
    var d, e := Items(w.platform.volumes.Keys, done), Items(w.platform.volumes.Keys, done + {x});
    MidwayAttachment(cfg, w, orc, d, x);
    if Live(w.platform.attachments[x]) {
      LiveAdvances(cfg, w, orc, d, e, x, m);
    } else {
      DeadAdvances(cfg, w, orc, d, e, x, m);
    }
  }

  lemma ProgressElsewhere(cfg: Config, s: Platform, d: Items, e: Items, x: string)
    requires PlatformOk(cfg, s) && x in s.attachments && e == Items(d.volumes, d.attachments + {x})
    ensures forall j :: j != s.attachments[x].link.volume || !Live(s.attachments[x])
               ==> ProgressOf(s, d, j) == ProgressOf(s, e, j)
  {
  }
}
