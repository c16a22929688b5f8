/** How the cloud backs the platform: whose disk is whose, how large, and who holds it. */
module Backing {
  import opened Model
  import opened Provider
  import opened Calls
  import opened Invariants
  import opened Reconciling
  import opened Passes
  import opened Replay
  import opened NodeCalls

  ghost predicate SizesOk(s: Platform) {
    forall k :: k in s.volumes ==> s.volumes[k].size <= s.volumes[k].desired
  }

  /** A platform state that a reachable system can have. */
  ghost predicate Sound(cfg: Config, s: Platform) {
    PlatformOk(cfg, s) && DevicesOk(s) && SizesOk(s)
  }

  /** A record that says its disk is, or may still be, attached. */
  predicate Claims(a: Attachment) { a.state == ATTACHED || a.uses != {} }

  /** The disk belongs to a volume, has that volume's key, and lies between its size and its goal. Whoever it is
      attached by is that volume's live attachment. */
  ghost predicate DiskFits(s: Platform, k: string, d: Disk) {
    && k in s.volumes && s.volumes[k].state != DELETED
    && d.id == k && d.deviceKey == DeviceKeyOf(k)
    && s.volumes[k].size <= d.size <= s.volumes[k].desired
    && (d.instance != "" ==> IsLiveOn(s, k, d.attachment) && s.attachments[d.attachment].link.instance == d.instance)
  }

  ghost predicate ClaimMet(s: Platform, x: string, disk: Option<Disk>) {
    x in s.attachments && Claims(s.attachments[x]) ==> AttachedBy(disk, s.attachments[x])
  }

  /** What `k`'s disk owes the platform as long as nothing outside the system has touched it. */
  ghost predicate Intact(s: Platform, k: string, disk: Option<Disk>) {
    && (k in s.volumes && Serving(s.volumes[k]) ==> disk.Some?)
    && forall x :: x in s.attachments && s.attachments[x].link.volume == k ==> ClaimMet(s, x, disk)
  }

  ghost predicate Backs(s: Platform, k: string, disk: Option<Disk>, drifted: set<string>) {
    (disk.Some? ==> DiskFits(s, k, disk.value)) && (k !in drifted ==> Intact(s, k, disk))
  }

  ghost predicate Backed(s: Platform, c: Cloud, drifted: set<string>) {
    forall k :: Backs(s, k, Look(c, k), drifted)
  }

  // ----- one state standing for another -----

  ghost predicate VolumeShadowed(v: Volume, w: Volume) {
    && w.desired == v.desired && w.generation == v.generation
    && w.deleteRequested == v.deleteRequested && w.allowFormat == v.allowFormat
    && (Serving(v) ==> Serving(w))
  }

  ghost predicate AttachmentShadowed(a: Attachment, b: Attachment) {
    && b.uses == a.uses && b.deleteRequested == a.deleteRequested
    && (a.state == ATTACHED ==> b.state == ATTACHED)
  }

  /** `t` is `s` as a reconcile transaction has it so far: beliefs have moved, intents have not. */
  ghost predicate Shadows(s: Platform, t: Platform) {
    && Evolves(s, t)
    && t.volumes.Keys == s.volumes.Keys && t.attachments.Keys == s.attachments.Keys
    && (forall k :: k in s.volumes ==> VolumeShadowed(s.volumes[k], t.volumes[k]))
    && (forall x :: x in s.attachments ==> AttachmentShadowed(s.attachments[x], t.attachments[x]))
  }

  lemma ShadowsItself(s: Platform)
    ensures Shadows(s, s)
  {
  }

  lemma ShadowsTransitively(s: Platform, t: Platform, u: Platform)
    requires Shadows(s, t) && Shadows(t, u)
    ensures Shadows(s, u)
  {
    hide VolumeEvolves, AttachmentEvolves, VolumeShadowed, AttachmentShadowed;
    EvolvesTransitively(s, t, u);
    forall k | k in s.volumes ensures VolumeShadowed(s.volumes[k], u.volumes[k]) {
      VolumeShadowedOn(s.volumes[k], t.volumes[k], u.volumes[k]);
    }
    forall x | x in s.attachments ensures AttachmentShadowed(s.attachments[x], u.attachments[x]) {
      AttachmentShadowedOn(s.attachments[x], t.attachments[x], u.attachments[x]);
    }
  }

  lemma VolumeShadowedOn(u: Volume, v: Volume, w: Volume)
    requires VolumeShadowed(u, v) && VolumeShadowed(v, w)
    ensures VolumeShadowed(u, w)
  {
  }

  lemma AttachmentShadowedOn(a: Attachment, b: Attachment, c: Attachment)
    requires AttachmentShadowed(a, b) && AttachmentShadowed(b, c)
    ensures AttachmentShadowed(a, c)
  {
  }

  /** A dropped transaction does no harm: what backs its copy backs the original. */
  lemma DroppedIsBacked(s: Platform, t: Platform, c: Cloud, drifted: set<string>)
    requires Shadows(s, t) && Backed(t, c, drifted)
    ensures Backed(s, c, drifted)
  {
    forall k ensures Backs(s, k, Look(c, k), drifted) {
      assert Backs(t, k, Look(c, k), drifted);
      DroppedFits(s, t, k, Look(c, k), drifted);
    }
  }

  lemma DroppedFits(s: Platform, t: Platform, k: string, disk: Option<Disk>, drifted: set<string>)
    requires Shadows(s, t) && Backs(t, k, disk, drifted)
    ensures Backs(s, k, disk, drifted)
  {
    forall x | x in s.attachments && s.attachments[x].link.volume == k && k !in drifted ensures ClaimMet(s, x, disk) {
      assert ClaimMet(t, x, disk);
    }
  }

  // ----- API calls -----

  /** What any API call may do as far as the cloud can tell. */
  ghost predicate CallFrame(s: Platform, t: Platform) {
    && (forall k :: k in s.volumes ==> k in t.volumes && VolumeFrame(s.volumes[k], t.volumes[k]))
    && (forall k :: k in t.volumes && k !in s.volumes
           ==> t.volumes[k].state == CREATING && t.volumes[k].lastError == Clear)
    && (forall x :: x in s.attachments ==> x in t.attachments && AttachmentFrame(s.attachments[x], t.attachments[x]))
    && (forall x :: x in t.attachments && x !in s.attachments
           ==> t.attachments[x].state == ATTACHING && t.attachments[x].lastError == Clear)
  }

  ghost predicate VolumeFrame(v: Volume, w: Volume) {
    && w.size == v.size && w.deviceKey == v.deviceKey && v.desired <= w.desired && w.lastError == v.lastError
    && (Serving(w) ==> Serving(v)) && (w.state == DELETED ==> v.state == DELETED)
  }

  ghost predicate AttachmentFrame(a: Attachment, b: Attachment) {
    && b.id == a.id && b.link == a.link && Live(b) == Live(a) && b.lastError == a.lastError
    && (Claims(b) ==> Claims(a))
  }

  lemma CallIsSound(cfg: Config, s: Platform, t: Platform)
    requires Sound(cfg, s) && PlatformOk(cfg, t) && CallFrame(s, t)
    ensures Sound(cfg, t)
  {
    forall k | k in t.volumes ensures DeviceOk(k, t.volumes[k]) && t.volumes[k].size <= t.volumes[k].desired {
      assert VolumeOk(k, t.volumes[k]);
      assert k in s.volumes ==> DeviceOk(k, s.volumes[k]);
    }
  }

  lemma CallIsBacked(cfg: Config, s: Platform, t: Platform, c: Cloud, drifted: set<string>)
    requires PlatformOk(cfg, t) && CallFrame(s, t) && Backed(s, c, drifted)
    ensures Backed(t, c, drifted)
  {
    hide PlatformOk, VolumesOk, AttachmentsOk;
    forall k ensures Backs(t, k, Look(c, k), drifted) {
      assert Backs(s, k, Look(c, k), drifted);
      forall x | x in t.attachments && t.attachments[x].link.volume == k && k !in drifted
        ensures ClaimMet(t, x, Look(c, k))
      {
        if x in s.attachments { assert ClaimMet(s, x, Look(c, k)); } else { NewbornClaimsNothing(cfg, t, x); }
      }
    }
  }

  lemma NewbornClaimsNothing(cfg: Config, t: Platform, x: string)
    requires PlatformOk(cfg, t) && x in t.attachments && t.attachments[x].state == ATTACHING
    ensures !Claims(t.attachments[x])
  {
    assert AttachmentOk(cfg, t, x, t.attachments[x]);
  }

  lemma VolumeCallFrame(p: Principal, op: Op, r: Request, s: Platform)
    requires op in {GetVolume, DeleteVolume, ResizeVolume} && VolumesOk(s)
    ensures CallFrame(s, VolumeCall(p, op, r, s).state)
  {
    hide CallFrame, Busy;
    NothingFramed(s);
    if r.id in s.volumes {
      var v := s.volumes[r.id];
      assert VolumeOk(r.id, v);
      PutVolumeFrame(s, r.id, Doomed(v));
      if ResizeAllowed(v, r.size) { PutVolumeFrame(s, r.id, Resized(v, r.size)); }
    }
  }

  lemma AttachmentCallFrame(p: Principal, op: Op, r: Request, s: Platform)
    requires op in {GetAttachment, DeleteAttachment}
    ensures CallFrame(s, AttachmentCall(p, op, r, s).state)
  {
  }

  lemma CreateVolumeFrame(cfg: Config, p: Principal, r: Request, newID: string, s: Platform)
    requires Fresh(s, newID)
    ensures CallFrame(s, CreateVolumeCall(cfg, p, r, newID, s).state)
  {
  }

  lemma NewIncarnationFrame(s: Platform, k: string, instance: string, newID: string)
    requires Fresh(s, newID) && k in s.volumes
    ensures CallFrame(s, NewIncarnation(s, k, instance, newID))
  {
  }

  lemma CreateAttachmentFrame(cfg: Config, p: Principal, r: Request, newID: string, s: Platform)
    requires Fresh(s, newID) && VolumesOk(s)
    ensures CallFrame(s, CreateAttachmentCall(cfg, p, r, newID, s).state)
  {
    hide CallFrame, Fresh, NewIncarnation;
    NothingFramed(s);
    if r.volume in s.volumes && r.instance in cfg.instances {
      NewIncarnationFrame(s, r.volume, cfg.instances[r.instance].id, newID);
    }
  }

  lemma PutVolumeFrame(s: Platform, k: string, w: Volume)
    requires k in s.volumes && VolumeFrame(s.volumes[k], w)
    ensures CallFrame(s, s.(volumes := s.volumes[k := w]))
  {
  }

  lemma PutAttachmentFrame(s: Platform, x: string, b: Attachment)
    requires x in s.attachments && AttachmentFrame(s.attachments[x], b)
    ensures CallFrame(s, WithAttachment(s, x, b))
  {
  }

  lemma GrantedFrame(op: Op, r: Request, a: Attachment, v: Volume, s: Platform)
    requires Look(s.attachments, r.attachment) == Some(a) && Look(s.volumes, r.volume) == Some(v)
    ensures CallFrame(s, GrantedUse(op, r, a, v, s).state)
  {
    hide CallFrame;
    NothingFramed(s);
    PutVolumeFrame(s, r.volume, v.(allowFormat := false));
    if a.state == ATTACHED { PutAttachmentFrame(s, r.attachment, a.(uses := a.uses + {r.use})); }
  }

  lemma NodeCallFrame(cfg: Config, p: Principal, op: Op, r: Request, s: Platform)
    ensures CallFrame(s, NodeCall(cfg, p, op, r, s).state)
  {
    hide CallFrame, GrantedUse;
    NothingFramed(s);
    if r.attachment in s.attachments {
      var a := s.attachments[r.attachment];
      PutAttachmentFrame(s, r.attachment, a.(uses := a.uses - {r.use}));
    }
    if r.attachment in s.attachments && r.volume in s.volumes {
      GrantedFrame(op, r, s.attachments[r.attachment], s.volumes[r.volume], s);
    }
  }

  lemma ApplyFrame(cfg: Config, p: Principal, op: Op, r: Request, newID: string, s: Platform)
    requires Fresh(s, newID) && PlatformOk(cfg, s)
    ensures CallFrame(s, Apply(cfg, p, op, r, newID, s).state)
  {
    hide CallFrame, VolumeCall, AttachmentCall, NodeCall, CreateVolumeCall, CreateAttachmentCall, AttachmentsOk,
        GenerationsDistinct, NamesUnique;
    assert CallFrame(s, s) by { NothingFramed(s); }
    NodeCallFrame(cfg, p, op, r, s);
    CreateVolumeFrame(cfg, p, r, newID, s);
    CreateAttachmentFrame(cfg, p, r, newID, s);
    if op in {GetVolume, DeleteVolume, ResizeVolume} { VolumeCallFrame(p, op, r, s); }
    if op in {GetAttachment, DeleteAttachment} { AttachmentCallFrame(p, op, r, s); }
  }

  lemma NothingFramed(s: Platform)
    ensures CallFrame(s, s)
  {
  }

  // ----- reconcile items -----

  /** What one volume item does to a backed volume: it moves its beliefs toward the disk, and errs only when told to. */
  lemma VolumeItemMoves(k: string, v: Volume, busy: bool, disk: Option<Disk>, f: Faults)
    requires VolumeOk(k, v) && DeviceOk(k, v) && v.size <= v.desired
    requires disk.Some? ==>
      && disk.value.id == k && disk.value.deviceKey == DeviceKeyOf(k)
      && v.size <= disk.value.size <= v.desired
    ensures var o := VolumeItem(v, busy, disk, f);
            && VolumeEvolves(v, o.volume) && VolumeShadowed(v, o.volume) && DeviceOk(k, o.volume)
            && o.volume.size <= o.volume.desired
            && (o.disk.Some? ==>
                 && o.disk.value.id == k && o.disk.value.deviceKey == DeviceKeyOf(k)
                 && o.volume.size <= o.disk.value.size <= v.desired
                 && (v.state != DELETED ==> o.volume.state != DELETED))
            && (disk.Some? && o.disk.Some?
                ==> HeldBy(o.disk.value, disk.value.instance, disk.value.attachment)
                    && disk.value.size <= o.disk.value.size)
            && (disk.Some? && busy ==> o.disk.Some?)
            && (disk.None? && o.disk.Some? ==> o.disk.value.instance == "" && v.state == CREATING)
            && (Serving(o.volume) && v.state == CREATING ==> o.disk.Some?)
            && (Serving(v) && disk.Some? ==> o.disk.Some?)
            && (Serving(o.volume) ==> Serving(v) || v.state == CREATING)
  {
  }

  lemma VolumeStepKeeps(cfg: Config, w: View, k: string, f: Faults, drifted: set<string>)
    requires Sound(cfg, w.platform) && Backed(w.platform, w.cloud, drifted) && k in w.platform.volumes
    ensures var u := StepVolume(w, k, f);
            Sound(cfg, u.platform) && Shadows(w.platform, u.platform) && Backed(u.platform, u.cloud, drifted)
  {
    hide PlatformOk, VolumeItem, Backs, VolumeOk;
    var s, u := w.platform, StepVolume(w, k, f);
    var v, o := s.volumes[k], VolumeStepAt(w, k, f);
    StepVolumeOk(cfg, w, k, f);
    VolumeStepMoves(cfg, w, k, f, drifted);
    forall j | j in u.platform.volumes
      ensures DeviceOk(j, u.platform.volumes[j]) && u.platform.volumes[j].size <= u.platform.volumes[j].desired
    {
      assert DeviceOk(j, s.volumes[j]);
    }
    forall j ensures Backs(u.platform, j, Look(u.cloud, j), drifted) {
      assert Backs(s, j, Look(w.cloud, j), drifted);
      if j != k { OtherVolumeBacked(w, k, f, j, drifted); } else { VolumeStepBacks(cfg, w, k, f, drifted); }
    }
    assert Shadows(s, u.platform) by { hide VolumeStepAt; }
  }

  lemma VolumeStepMoves(cfg: Config, w: View, k: string, f: Faults, drifted: set<string>)
    requires Sound(cfg, w.platform) && Backed(w.platform, w.cloud, drifted) && k in w.platform.volumes
    ensures var o, v := VolumeStepAt(w, k, f).volume, w.platform.volumes[k];
            VolumeEvolves(v, o) && VolumeShadowed(v, o) && DeviceOk(k, o) && o.size <= o.desired
  {
    hide VolumeItem, AttachmentsOk;
    assert Backs(w.platform, k, Look(w.cloud, k), drifted);
    assert VolumeOk(k, w.platform.volumes[k]) && DeviceOk(k, w.platform.volumes[k]);
    VolumeItemMoves(k, w.platform.volumes[k], Busy(w.platform, k), Look(w.cloud, k), f);
  }

  lemma OtherVolumeBacked(w: View, k: string, f: Faults, j: string, drifted: set<string>)
    requires k in w.platform.volumes && j != k && Backs(w.platform, j, Look(w.cloud, j), drifted)
    ensures var u := StepVolume(w, k, f); Backs(u.platform, j, Look(u.cloud, j), drifted)
  {
    hide VolumeItem;
    var u := StepVolume(w, k, f);
    assert Look(u.cloud, j) == Look(w.cloud, j);
    forall x | x in u.platform.attachments && u.platform.attachments[x].link.volume == j && j !in drifted
      ensures ClaimMet(u.platform, x, Look(u.cloud, j))
    {
      assert ClaimMet(w.platform, x, Look(w.cloud, j));
    }
  }

  /** An attachment that claims its disk is live. */
  lemma ClaimantIsLive(cfg: Config, s: Platform, x: string)
    requires PlatformOk(cfg, s) && x in s.attachments && Claims(s.attachments[x])
    ensures Live(s.attachments[x]) && Busy(s, s.attachments[x].link.volume)
  {
    assert AttachmentOk(cfg, s, x, s.attachments[x]);
    assert IsLiveOn(s, s.attachments[x].link.volume, x);
  }

  lemma VolumeStepBacks(cfg: Config, w: View, k: string, f: Faults, drifted: set<string>)
    requires Sound(cfg, w.platform) && Backed(w.platform, w.cloud, drifted) && k in w.platform.volumes
    ensures var u := StepVolume(w, k, f); Backs(u.platform, k, Look(u.cloud, k), drifted)
  {
    hide VolumeItem, PlatformOk;
    var s, u := w.platform, StepVolume(w, k, f);
    var disk, after := Look(w.cloud, k), Look(u.cloud, k);
    assert Backs(s, k, disk, drifted);
    assert VolumeOk(k, s.volumes[k]) && DeviceOk(k, s.volumes[k]) by { VolumeFacts(cfg, s, k); }
    VolumeItemMoves(k, s.volumes[k], Busy(s, k), disk, f);
    forall x | x in u.platform.attachments && u.platform.attachments[x].link.volume == k && k !in drifted
      ensures ClaimMet(u.platform, x, after)
    {
      assert ClaimMet(s, x, disk);
      if Claims(s.attachments[x]) { ClaimantIsLive(cfg, s, x); }
    }
  }

  lemma VolumeFacts(cfg: Config, s: Platform, k: string)
    requires Sound(cfg, s) && k in s.volumes
    ensures VolumeOk(k, s.volumes[k]) && DeviceOk(k, s.volumes[k]) && s.volumes[k].size <= s.volumes[k].desired
  {
  }

  lemma AttachmentItemMoves(a: Attachment, active: bool, error: Trouble, disk: Option<Disk>, f: Faults)
    requires a.deleteRequested <==> a.state == DETACHING || a.state == DETACHED
    requires a.state == ATTACHING || a.state == DETACHED ==> a.uses == {}
    requires a.link.instance != ""
    requires Live(a) && disk.Some? && disk.value.instance != "" ==> AttachedBy(disk, a)
    ensures var o := AttachmentItem(a, active, error, disk, f);
            && AttachmentEvolves(a, o.attachment) && AttachmentShadowed(a, o.attachment)
            && (Live(a) && o.disk.Some? && o.disk.value.instance != "" ==> Live(o.attachment) && AttachedBy(o.disk, a))
            && (Claims(o.attachment) && (Claims(a) ==> AttachedBy(disk, a)) ==> AttachedBy(o.disk, a))
  {
  }

  lemma AttachmentFacts(cfg: Config, s: Platform, x: string, disk: Option<Disk>, drifted: set<string>)
    requires ConfigOk(cfg) && Sound(cfg, s) && x in s.attachments
    requires Backs(s, s.attachments[x].link.volume, disk, drifted)
    ensures AttachmentOk(cfg, s, x, s.attachments[x]) && s.attachments[x].link.instance != ""
    ensures Live(s.attachments[x]) && disk.Some? && disk.value.instance != "" ==> AttachedBy(disk, s.attachments[x])
  {
    var a := s.attachments[x];
    assert AttachmentOk(cfg, s, x, a);
    if Live(a) && disk.Some? && disk.value.instance != "" { AtMostOneLive(cfg, s, x, disk.value.attachment); }
  }

  lemma AttachmentStepKeeps(cfg: Config, w: View, x: string, f: Faults, drifted: set<string>)
    requires ConfigOk(cfg) && Sound(cfg, w.platform) && Backed(w.platform, w.cloud, drifted)
        && x in w.platform.attachments
    ensures w.platform.attachments[x].link.volume in w.platform.volumes
    ensures var u := StepAttachment(cfg, w, x, f);
            Sound(cfg, u.platform) && Shadows(w.platform, u.platform) && Backed(u.platform, u.cloud, drifted)
  {
    hide PlatformOk, AttachmentItem, Backs;
    var a := w.platform.attachments[x];
    var k := a.link.volume;
    assert Backs(w.platform, k, Look(w.cloud, k), drifted);
    AttachmentFacts(cfg, w.platform, x, Look(w.cloud, k), drifted);
    StepAttachmentOk(cfg, w, x, f);
    var u := StepAttachment(cfg, w, x, f);
    AttachmentItemMoves(a, InstanceActive(cfg, a.link.instance), w.platform.volumes[k].lastError, Look(w.cloud, k), f);
    forall j ensures Backs(u.platform, j, Look(u.cloud, j), drifted) {
      assert Backs(w.platform, j, Look(w.cloud, j), drifted);
      AttachmentStepBacks(cfg, w, x, f, j, drifted);
    }
    assert Shadows(w.platform, u.platform);
  }

  lemma AttachmentStepBacks(cfg: Config, w: View, x: string, f: Faults, j: string, drifted: set<string>)
    requires ConfigOk(cfg) && Sound(cfg, w.platform) && x in w.platform.attachments
    requires w.platform.attachments[x].link.volume in w.platform.volumes
    requires Backed(w.platform, w.cloud, drifted)
    ensures var u := StepAttachment(cfg, w, x, f); Backs(u.platform, j, Look(u.cloud, j), drifted)
  {
    hide PlatformOk, AttachmentItem;
    var s, u := w.platform, StepAttachment(cfg, w, x, f);
    var a, b := s.attachments[x], u.platform.attachments[x];
    var k, disk, after := a.link.volume, Look(w.cloud, a.link.volume), Look(u.cloud, a.link.volume);
    assert Backs(s, k, disk, drifted) && Backs(s, j, Look(w.cloud, j), drifted);
    AttachmentFacts(cfg, s, x, disk, drifted);
    AttachmentItemMoves(a, InstanceActive(cfg, a.link.instance), s.volumes[k].lastError, disk, f);
    AttachmentItemFrame(a, InstanceActive(cfg, a.link.instance), s.volumes[k].lastError, disk, f);
    if j == k {
      if !Live(a) { DeadItem(a, InstanceActive(cfg, a.link.instance), s.volumes[k].lastError, disk, f); }
      forall y | y in u.platform.attachments && u.platform.attachments[y].link.volume == k && k !in drifted
        ensures ClaimMet(u.platform, y, after)
      {
        assert ClaimMet(s, y, disk) && ClaimMet(s, x, disk);
        if y != x && Claims(s.attachments[y]) && Live(a) {
          ClaimantIsLive(cfg, s, y);
          AtMostOneLive(cfg, s, x, y);
        }
      }
    } else {
      assert Look(u.cloud, j) == Look(w.cloud, j);
      forall y | y in u.platform.attachments && u.platform.attachments[y].link.volume == j && j !in drifted
        ensures ClaimMet(u.platform, y, Look(u.cloud, j))
      {
        assert ClaimMet(s, y, Look(w.cloud, j));
      }
    }
  }

  lemma DeadItem(a: Attachment, active: bool, error: Trouble, disk: Option<Disk>, f: Faults)
    requires !Live(a)
    ensures AttachmentItem(a, active, error, disk, f) == AttachmentStep(a, disk)
  {
  }
}
