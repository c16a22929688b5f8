/** Whole reconcile runs: order, interruption, repetition. */
module Replay {
  import opened Model
  import opened Provider
  import opened Calls
  import opened Invariants
  import opened Reconciling
  import opened Passes

  // ----- an item keeps the platform well formed, whatever the cloud holds -----

  lemma VolumeItemOk(k: string, v: Volume, busy: bool, disk: Option<Disk>, f: Faults)
    requires VolumeOk(k, v)
    ensures VolumeOk(k, VolumeItem(v, busy, disk, f).volume)
    ensures Serving(v) ==> Serving(VolumeItem(v, busy, disk, f).volume)
  {
  }

  lemma StepVolumeOk(cfg: Config, m: View, k: string, f: Faults)
    requires PlatformOk(cfg, m.platform) && k in m.platform.volumes
    ensures PlatformOk(cfg, StepVolume(m, k, f).platform)
  {
    var v := m.platform.volumes[k];
    assert VolumeOk(k, v);
    VolumeItemOk(k, v, Busy(m.platform, k), Look(m.cloud, k), f);
    if Busy(m.platform, k) {
      var x := LiveOn(m.platform, k).value;
      assert AttachmentOk(cfg, m.platform, x, m.platform.attachments[x]);
    }
    SetVolumeOk(cfg, m.platform, k, VolumeStepAt(m, k, f).volume);
  }

  lemma AttachmentItemOk(cfg: Config, s: Platform, x: string, active: bool, error: Trouble, disk: Option<Disk>,
                         f: Faults)
    requires PlatformOk(cfg, s) && x in s.attachments
    ensures AttachmentOk(cfg, s, x, AttachmentItem(s.attachments[x], active, error, disk, f).attachment)
  {
    assert AttachmentOk(cfg, s, x, s.attachments[x]);
  }

  lemma StepAttachmentOk(cfg: Config, m: View, x: string, f: Faults)
    requires PlatformOk(cfg, m.platform) && x in m.platform.attachments
    ensures m.platform.attachments[x].link.volume in m.platform.volumes
    ensures PlatformOk(cfg, StepAttachment(cfg, m, x, f).platform)
  {
    var a := m.platform.attachments[x];
    assert AttachmentOk(cfg, m.platform, x, a);
    AttachmentItemOk(cfg, m.platform, x, InstanceActive(cfg, a.link.instance),
                     m.platform.volumes[a.link.volume].lastError, Look(m.cloud, a.link.volume), f);
    SetAttachmentOk(cfg, m.platform, x, AttachmentStepAt(cfg, m, x, f).attachment);
  }

  /** How far a run can get: volumes first. */
  ghost predicate Reachable(s: Platform, done: Items) {
    && done.volumes <= s.volumes.Keys && done.attachments <= s.attachments.Keys
    && (done.attachments != {} ==> done.volumes == s.volumes.Keys)
  }

  lemma MidwayKeys(cfg: Config, w: View, orc: Oracle, done: Items)
    ensures Midway(cfg, w, orc, done).platform.volumes.Keys == w.platform.volumes.Keys
    ensures Midway(cfg, w, orc, done).platform.attachments.Keys == w.platform.attachments.Keys
  {
  }

  lemma {:induction false} MidwayOk(cfg: Config, w: View, orc: Oracle, done: Items)
    requires PlatformOk(cfg, w.platform) && Reachable(w.platform, done)
    ensures PlatformOk(cfg, Midway(cfg, w, orc, done).platform)
    decreases done.attachments, done.volumes
  {
    hide PlatformOk, Midway, StepVolume, StepAttachment;
    if done.attachments != {} {
      var x :| x in done.attachments;
      var d := Items(done.volumes, done.attachments - {x});
      var m := Midway(cfg, w, orc, d);
      MidwayOk(cfg, w, orc, d);
      AttachmentAdvances(cfg, w, orc, d.attachments, x, m);
      assert d.attachments + {x} == done.attachments;
      StepAttachmentOk(cfg, m, x, orc.attachments(x));
    } else if done.volumes != {} {
      var k :| k in done.volumes;
      var d := Items(done.volumes - {k}, {});
      MidwayOk(cfg, w, orc, d);
      VolumeAdvances(cfg, w, orc, d.volumes, k);
      assert d.volumes + {k} == done.volumes;
      assert k in Midway(cfg, w, orc, d).platform.volumes by { MidwayKeys(cfg, w, orc, d); }
      StepVolumeOk(cfg, Midway(cfg, w, orc, d), k, orc.volumes(k));
    } else {
      NothingDone(cfg, w, orc);
    }
  }

  // ----- order -----

  predicate Distinct(order: seq<string>) {
    forall i, j :: 0 <= i < j < |order| ==> order[i] != order[j]
  }

  ghost function Elements(order: seq<string>): set<string> { set x | x in order }

  /** The volume loop when the map happens to be ranged over in this order. */
  ghost function VolumesInOrder(w: View, orc: Oracle, order: seq<string>): (r: View)
    requires Elements(order) <= w.platform.volumes.Keys
    ensures r.platform.volumes.Keys == w.platform.volumes.Keys
  {
    if order == [] then w
    else
      var n := |order| - 1;
      StepVolume(VolumesInOrder(w, orc, order[..n]), order[n], orc.volumes(order[n]))
  }

  ghost predicate LinksIn(s: Platform) {
    forall x :: x in s.attachments ==> s.attachments[x].link.volume in s.volumes
  }

  /** The attachment loop in this order. */
  ghost function AttachmentsInOrder(cfg: Config, w: View, orc: Oracle, order: seq<string>): (r: View)
    requires LinksIn(w.platform) && Elements(order) <= w.platform.attachments.Keys
    ensures LinksIn(r.platform) && r.platform.attachments.Keys == w.platform.attachments.Keys
  {
    if order == [] then w
    else
      var n := |order| - 1;
      StepAttachment(cfg, AttachmentsInOrder(cfg, w, orc, order[..n]), order[n], orc.attachments(order[n]))
  }

  lemma {:induction false} VolumesInAnyOrder(cfg: Config, w: View, orc: Oracle, order: seq<string>)
    requires PlatformOk(cfg, w.platform) && Distinct(order) && Elements(order) <= w.platform.volumes.Keys
    ensures VolumesInOrder(w, orc, order) == Midway(cfg, w, orc, Items(Elements(order), {}))
  {
    hide PlatformOk, Midway, StepVolume;
    if order == [] {
      assert Elements(order) == {};
      NothingDone(cfg, w, orc);
    } else {
      var n := |order| - 1;
      VolumesInAnyOrder(cfg, w, orc, order[..n]);
      assert Elements(order[..n]) + {order[n]} == Elements(order);
      VolumeAdvances(cfg, w, orc, Elements(order[..n]), order[n]);
    }
  }

  lemma {:induction false} AttachmentsInAnyOrder(cfg: Config, w: View, orc: Oracle, m: View, order: seq<string>)
    requires PlatformOk(cfg, w.platform) && Distinct(order) && Elements(order) <= w.platform.attachments.Keys
    requires m == Midway(cfg, w, orc, Items(w.platform.volumes.Keys, {})) && LinksIn(m.platform)
    ensures AttachmentsInOrder(cfg, m, orc, order)
        == Midway(cfg, w, orc, Items(w.platform.volumes.Keys, Elements(order)))
  {
    MidwayKeys(cfg, w, orc, Items(w.platform.volumes.Keys, {}));
    hide PlatformOk, Midway, StepAttachment;
    if order == [] {
      assert Elements(order) == {};
    } else {
      var n := |order| - 1;
      AttachmentsInAnyOrder(cfg, w, orc, m, order[..n]);
      assert Elements(order[..n]) + {order[n]} == Elements(order);
      AttachmentAdvances(cfg, w, orc, Elements(order[..n]), order[n], AttachmentsInOrder(cfg, m, orc, order[..n]));
    }
  }

  lemma OkLinksIn(cfg: Config, s: Platform)
    requires PlatformOk(cfg, s)
    ensures LinksIn(s)
  {
    forall x | x in s.attachments ensures s.attachments[x].link.volume in s.volumes {
      assert AttachmentOk(cfg, s, x, s.attachments[x]);
    }
  }

  /** Map order is unobservable: any two orders of the two loops, meeting the same faults, leave the same platform and
      the same cloud, whatever the cloud held. */
  lemma MapOrderIrrelevant(cfg: Config, w: View, orc: Oracle, vs: seq<string>, xs: seq<string>)
    requires PlatformOk(cfg, w.platform)
    requires Distinct(vs) && Elements(vs) == w.platform.volumes.Keys
    requires Distinct(xs) && Elements(xs) == w.platform.attachments.Keys
    ensures LinksIn(VolumesInOrder(w, orc, vs).platform)
    ensures VolumesInOrder(w, orc, vs).platform.attachments.Keys == w.platform.attachments.Keys
    ensures AttachmentsInOrder(cfg, VolumesInOrder(w, orc, vs), orc, xs) == Reconciled(cfg, w, orc)
  {
    VolumesInAnyOrder(cfg, w, orc, vs);
    var m := VolumesInOrder(w, orc, vs);
    MidwayOk(cfg, w, orc, Items(w.platform.volumes.Keys, {}));
    OkLinksIn(cfg, m.platform);
    AttachmentsInAnyOrder(cfg, w, orc, m, xs);
  }

  // ----- interruption and repetition -----

  ghost function ActiveFor(cfg: Config, s: Platform, k: string): bool {
    var x := LiveOn(s, k);
    x.Some? && InstanceActive(cfg, s.attachments[x.value].link.instance)
  }

  ghost function FaultsFor(orc: Oracle, s: Platform, k: string): Faults {
    var x := LiveOn(s, k);
    if x.Some? then orc.attachments(x.value) else NO_FAULTS
  }

  /** A complete run takes every cell through both passes. */
  lemma FullCell(cfg: Config, w: View, orc: Oracle, k: string)
    requires k in w.platform.volumes
    ensures CellAt(cfg, w, orc, AllItems(w.platform), k)
         == RunCell(CellOf(w, k), ActiveFor(cfg, w.platform, k), orc.volumes(k), FaultsFor(orc, w.platform, k))
  {
    hide VolumeItem, AttachmentItem;
  }

  lemma CellWellFormed(cfg: Config, w: View, k: string)
    requires PlatformOk(cfg, w.platform) && k in w.platform.volumes
    ensures CellOk(CellOf(w, k))
  {
    if Busy(w.platform, k) {
      var x := LiveOn(w.platform, k).value;
      assert AttachmentOk(cfg, w.platform, x, w.platform.attachments[x]);
      assert VolumeOk(k, w.platform.volumes[k]);
    }
  }

  /** Two runs over the same platform keys that agree cell by cell agree. */
  lemma SameCells(cfg: Config, w: View, u: View, orc: Oracle, orc': Oracle)
    requires PlatformOk(cfg, w.platform) && u.platform == w.platform
    requires forall k :: k in w.platform.volumes ==>
      CellAt(cfg, w, orc, AllItems(w.platform), k) == CellAt(cfg, u, orc', AllItems(w.platform), k)
    requires forall k :: k !in w.platform.volumes ==> Look(w.cloud, k) == Look(u.cloud, k)
    ensures Reconciled(cfg, w, orc) == Reconciled(cfg, u, orc')
  {
    hide PlatformOk, CellAt;
    var all := AllItems(w.platform);
    assert VolumesAt(cfg, w, orc, all) == VolumesAt(cfg, u, orc', all);
    assert AttachmentsAt(cfg, w, orc, all) == AttachmentsAt(cfg, u, orc', all);
    assert CloudAt(cfg, w, orc, all) == CloudAt(cfg, u, orc', all) by {
      assert forall k :: DiskAt(cfg, w, orc, all, k) == DiskAt(cfg, u, orc', all, k);
    }
  }

  /** The platform crashes inside a run, at any point and after any faults: its transaction is lost, the cloud's
      effects are not. The next faultless run ends exactly where an uninterrupted faultless run would have. */
  lemma CrashReplay(cfg: Config, w: View, orc: Oracle, done: Items)
    requires PlatformOk(cfg, w.platform)
    ensures Reconciled(cfg, View(w.platform, CloudAt(cfg, w, orc, done)), CALM) == Reconciled(cfg, w, CALM)
  {
    var u := View(w.platform, CloudAt(cfg, w, orc, done));
    var all := AllItems(w.platform);
    forall k | k in w.platform.volumes
      ensures CellAt(cfg, w, CALM, all, k) == CellAt(cfg, u, CALM, all, k)
    {
      CrashReplayCell(cfg, w, orc, done, k);
    }
    forall k | k !in w.platform.volumes ensures Look(w.cloud, k) == Look(u.cloud, k) {
      LookCloudAt(cfg, w, orc, done, k);
    }
    SameCells(cfg, w, u, CALM, CALM);
  }

  lemma CrashReplayCell(cfg: Config, w: View, orc: Oracle, done: Items, k: string)
    requires PlatformOk(cfg, w.platform) && k in w.platform.volumes
    ensures var u := View(w.platform, CloudAt(cfg, w, orc, done));
            CellAt(cfg, u, CALM, AllItems(w.platform), k) == CellAt(cfg, w, CALM, AllItems(w.platform), k)
  {
    hide PlatformOk, CloudAt, RunCell;
    var u := View(w.platform, CloudAt(cfg, w, orc, done));
    var c := CellOf(w, k);
    LookCloudAt(cfg, w, orc, done, k);
    assert CellOf(u, k) == c.(disk := CellAt(cfg, w, orc, done, k).disk);
    CellWellFormed(cfg, w, k);
    ReplayDropped(c, ActiveFor(cfg, w.platform, k), orc.volumes(k), FaultsFor(orc, w.platform, k),
        ProgressOf(w.platform, done, k));
    FullCell(cfg, w, CALM, k);
    FullCell(cfg, u, CALM, k);
  }

  /** The record a complete run leaves for an attachment that was live when it began. */
  lemma FullAttachment(cfg: Config, w: View, orc: Oracle, x: string)
    requires PlatformOk(cfg, w.platform) && x in w.platform.attachments && Live(w.platform.attachments[x])
    ensures var k := w.platform.attachments[x].link.volume;
            && k in w.platform.volumes && LiveOn(w.platform, k) == Some(x)
            && CellAt(cfg, w, orc, AllItems(w.platform), k).attachment
            == Some(Reconciled(cfg, w, orc).platform.attachments[x])
  {
    hide PlatformOk, VolumeItem;
    LiveIsLiveOn(cfg, w.platform, x);
    FullCell(cfg, w, orc, w.platform.attachments[x].link.volume);
  }

  lemma DeadStaysPut(cfg: Config, w: View, orc: Oracle, x: string)
    requires PlatformOk(cfg, w.platform) && x in w.platform.attachments
    ensures var u := Reconciled(cfg, w, orc).platform;
            && x in u.attachments
            && (!Live(w.platform.attachments[x]) ==> u.attachments[x] == w.platform.attachments[x])
            && u.attachments[x].link == w.platform.attachments[x].link
  {
    hide PlatformOk, VolumeItem;
    if Live(w.platform.attachments[x]) { LiveIsLiveOn(cfg, w.platform, x); }
  }

  lemma RecordedCell(cfg: Config, w: View, orc: Oracle, k: string)
    requires k in w.platform.volumes
    ensures var u, c := Reconciled(cfg, w, orc), CellAt(cfg, w, orc, AllItems(w.platform), k);
            k in u.platform.volumes && u.platform.volumes[k] == c.volume && Look(u.cloud, k) == c.disk
  {
    LookCloudAt(cfg, w, orc, AllItems(w.platform), k);
  }

  /** Whatever is live on `k` after a run was live on it before. */
  lemma LiveCameFrom(cfg: Config, w: View, orc: Oracle, k: string)
    requires PlatformOk(cfg, w.platform) && Busy(Reconciled(cfg, w, orc).platform, k)
    ensures LiveOn(w.platform, k) == LiveOn(Reconciled(cfg, w, orc).platform, k)
  {
    hide PlatformOk, Midway;
    var u := Reconciled(cfg, w, orc);
    var y := LiveOn(u.platform, k).value;
    MidwayKeys(cfg, w, orc, AllItems(w.platform));
    DeadStaysPut(cfg, w, orc, y);
    LiveIsLiveOn(cfg, w.platform, y);
  }

  lemma LiveGoesTo(cfg: Config, w: View, orc: Oracle, x: string)
    requires PlatformOk(cfg, w.platform) && x in w.platform.attachments && Live(w.platform.attachments[x])
    requires var u := Reconciled(cfg, w, orc).platform; x in u.attachments && Live(u.attachments[x])
    ensures LiveOn(Reconciled(cfg, w, orc).platform, w.platform.attachments[x].link.volume) == Some(x)
  {
    hide PlatformOk, Midway;
    DeadStaysPut(cfg, w, orc, x);
    MidwayOk(cfg, w, orc, AllItems(w.platform));
    LiveIsLiveOn(cfg, Reconciled(cfg, w, orc).platform, x);
  }

  /** The committed cell: as computed, except that a detached attachment no longer shows. */
  function Shown(c: Cell): Cell {
    if CellBusy(c) then c else c.(attachment := None)
  }

  lemma CommittedCell(cfg: Config, w: View, orc: Oracle, k: string)
    requires PlatformOk(cfg, w.platform) && k in w.platform.volumes
    ensures var u, c := Reconciled(cfg, w, orc), CellAt(cfg, w, orc, AllItems(w.platform), k);
            && k in u.platform.volumes
            && CellOf(u, k) == Shown(c)
            && (CellBusy(c) ==> ActiveFor(cfg, u.platform, k) == ActiveFor(cfg, w.platform, k))
  {
    var all := AllItems(w.platform);
    var u, c := Reconciled(cfg, w, orc), CellAt(cfg, w, orc, all, k);
    RecordedCell(cfg, w, orc, k);
    FullCell(cfg, w, orc, k);
    hide PlatformOk, Midway, VolumeItem, AttachmentItem;
    if Busy(w.platform, k) {
      var x := LiveOn(w.platform, k).value;
      FullAttachment(cfg, w, orc, x);
      DeadStaysPut(cfg, w, orc, x);
      if Live(u.platform.attachments[x]) { LiveGoesTo(cfg, w, orc, x); }
    }
    if Busy(u.platform, k) { LiveCameFrom(cfg, w, orc, k); }
  }

  lemma ShownRuns(c: Cell, active: bool, active': bool, fv: Faults, fa: Faults)
    requires CellOk(c) && (CellBusy(c) ==> active == active')
    ensures var o, q := RunCell(c, active, fv, fa), RunCell(Shown(c), active', fv, fa);
            && o.volume == q.volume && o.disk == q.disk
            && (if CellBusy(c) then q.attachment == o.attachment else o.attachment == c.attachment)
  {
    hide VolumeItem;
  }

  lemma CommitReplayCell(cfg: Config, w: View, orc: Oracle, k: string)
    requires PlatformOk(cfg, w.platform) && k in w.platform.volumes
    ensures var u := Reconciled(cfg, w, orc);
            && k in u.platform.volumes
            && var c := CellAt(cfg, w, CALM, AllItems(w.platform), k);
               var q := CellAt(cfg, u, CALM, AllItems(u.platform), k);
               && q.volume == c.volume && q.disk == c.disk
               && (Busy(u.platform, k) ==> q.attachment == c.attachment)
               && (Busy(w.platform, k) && !Busy(u.platform, k)
                   ==> c.attachment == CellAt(cfg, w, orc, AllItems(w.platform), k).attachment)
  {
    var u := Reconciled(cfg, w, orc);
    var c := CellOf(w, k);
    var active, fv, fa := ActiveFor(cfg, w.platform, k), orc.volumes(k), FaultsFor(orc, w.platform, k);
    FullCell(cfg, w, orc, k);
    CommittedCell(cfg, w, orc, k);
    CellWellFormed(cfg, w, k);
    hide PlatformOk, Midway, CellAt;
    FullCell(cfg, w, CALM, k);
    FullCell(cfg, u, CALM, k);
    ReplayCommitted(c, active, fv, fa);
    var d := RunCell(c, active, fv, fa);
    RunKeepsCellOk(c, active, fv, fa);
    ShownRuns(d, active, ActiveFor(cfg, u.platform, k), NO_FAULTS, NO_FAULTS);
  }

  lemma RunKeepsCellOk(c: Cell, active: bool, fv: Faults, fa: Faults)
    requires CellOk(c)
    ensures CellOk(RunCell(c, active, fv, fa))
  {
  }

  /** A run that met any faults, and committed what it believed, is forgotten by the next faultless run. */
  lemma CommitReplay(cfg: Config, w: View, orc: Oracle)
    requires PlatformOk(cfg, w.platform)
    ensures Reconciled(cfg, Reconciled(cfg, w, orc), CALM) == Reconciled(cfg, w, CALM)
  {
    var u := Reconciled(cfg, w, orc);
    var all := AllItems(w.platform);
    MidwayKeys(cfg, w, orc, all);
    forall k | k in w.platform.volumes
      ensures CellAt(cfg, u, CALM, all, k).volume == CellAt(cfg, w, CALM, all, k).volume
      ensures CellAt(cfg, u, CALM, all, k).disk == CellAt(cfg, w, CALM, all, k).disk
    {
      CommitReplayCell(cfg, w, orc, k);
    }
    forall x | x in w.platform.attachments
      ensures AttachmentAt(cfg, u, CALM, all, x) == AttachmentAt(cfg, w, CALM, all, x)
    {
      CommitReplayAttachment(cfg, w, orc, x);
    }
    forall k | k !in w.platform.volumes ensures Look(u.cloud, k) == Look(w.cloud, k) {
      LookCloudAt(cfg, w, orc, all, k);
    }
    SameOutcome(cfg, u, w, CALM, CALM);
  }

  lemma CommitReplayAttachment(cfg: Config, w: View, orc: Oracle, x: string)
    requires PlatformOk(cfg, w.platform) && x in w.platform.attachments
    ensures var u := Reconciled(cfg, w, orc);
            && x in u.platform.attachments
            && Reconciled(cfg, u, CALM).platform.attachments[x] == Reconciled(cfg, w, CALM).platform.attachments[x]
  {
    var u := Reconciled(cfg, w, orc);
    hide PlatformOk, CellAt, Midway;
    DeadStaysPut(cfg, w, orc, x);
    DeadStaysPut(cfg, w, CALM, x);
    MidwayOk(cfg, w, orc, AllItems(w.platform));
    DeadStaysPut(cfg, u, CALM, x);
    if Live(w.platform.attachments[x]) {
      FullAttachment(cfg, w, orc, x);
      FullAttachment(cfg, w, CALM, x);
      CommitReplayCell(cfg, w, orc, w.platform.attachments[x].link.volume);
      if Live(u.platform.attachments[x]) {
        FullAttachment(cfg, u, CALM, x);
        LiveGoesTo(cfg, w, orc, x);
      } else if Busy(u.platform, w.platform.attachments[x].link.volume) {
        LiveCameFrom(cfg, w, orc, w.platform.attachments[x].link.volume);
      }
    }
  }

  lemma SameOutcome(cfg: Config, u: View, w: View, orc: Oracle, orc': Oracle)
    requires u.platform.volumes.Keys == w.platform.volumes.Keys
    requires u.platform.attachments.Keys == w.platform.attachments.Keys
    requires forall k :: k in w.platform.volumes ==>
      && CellAt(cfg, u, orc, AllItems(w.platform), k).volume == CellAt(cfg, w, orc', AllItems(w.platform), k).volume
      && CellAt(cfg, u, orc, AllItems(w.platform), k).disk == CellAt(cfg, w, orc', AllItems(w.platform), k).disk
    requires forall x :: x in w.platform.attachments ==>
      AttachmentAt(cfg, u, orc, AllItems(w.platform), x) == AttachmentAt(cfg, w, orc', AllItems(w.platform), x)
    requires forall k :: k !in w.platform.volumes ==> Look(u.cloud, k) == Look(w.cloud, k)
    ensures Reconciled(cfg, u, orc) == Reconciled(cfg, w, orc')
  {
    hide PlatformOk, CellAt, AttachmentAt;
    var all := AllItems(w.platform);
    assert VolumesAt(cfg, w, orc', all) == VolumesAt(cfg, u, orc, all);
    assert AttachmentsAt(cfg, w, orc', all) == AttachmentsAt(cfg, u, orc, all);
    assert CloudAt(cfg, w, orc', all) == CloudAt(cfg, u, orc, all) by {
      assert forall k :: DiskAt(cfg, w, orc', all, k) == DiskAt(cfg, u, orc, all, k);
    }
  }

  /** One attempt at reconciling: it meets faults, gets some way, and either commits (only at the end) or is lost. */
  datatype Attempt = Attempt(orc: Oracle, done: Items, commits: bool)

  ghost function AfterAttempt(cfg: Config, w: View, t: Attempt): View {
    if t.commits then Reconciled(cfg, w, t.orc) else View(w.platform, CloudAt(cfg, w, t.orc, t.done))
  }

  ghost function AfterAttempts(cfg: Config, w: View, ts: seq<Attempt>): View
    decreases |ts|
  {
    if ts == [] then w else AfterAttempts(cfg, AfterAttempt(cfg, w, ts[0]), ts[1..])
  }

  /** Any number of interrupted, faulty and half-successful runs, then one faultless run: platform and cloud are
      exactly those of that one faultless run alone. */
  lemma {:induction false} FaultsLeaveNoTrace(cfg: Config, w: View, ts: seq<Attempt>)
    requires PlatformOk(cfg, w.platform)
    ensures Reconciled(cfg, AfterAttempts(cfg, w, ts), CALM) == Reconciled(cfg, w, CALM)
    decreases |ts|
  {
    hide PlatformOk, Midway, CloudAt;
    if ts != [] {
      var u := AfterAttempt(cfg, w, ts[0]);
      if ts[0].commits {
        CommitReplay(cfg, w, ts[0].orc);
        MidwayOk(cfg, w, ts[0].orc, AllItems(w.platform));
      } else {
        CrashReplay(cfg, w, ts[0].orc, ts[0].done);
      }
      FaultsLeaveNoTrace(cfg, u, ts[1..]);
    }
  }

  /** From any cloud contents, a second faultless run changes nothing. */
  lemma SecondRunChangesNothing(cfg: Config, w: View)
    requires PlatformOk(cfg, w.platform)
    ensures Reconciled(cfg, Reconciled(cfg, w, CALM), CALM) == Reconciled(cfg, w, CALM)
  {
    CommitReplay(cfg, w, CALM);
  }
}
