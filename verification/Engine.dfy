/** The engine as it runs: transactions over the two maps, ranging over them in whatever order comes. */
module Engines {
  import opened Model
  import opened Provider
  import opened Calls
  import opened Invariants
  import opened Reconciling
  import opened Passes
  import opened Audit
  import opened Replay

  // ----- searches over a map; `todo` is what the range has not visited yet -----

  method FindLive(s: Platform, volume: string) returns (found: Option<string>)
    ensures found.Some? ==> IsLiveOn(s, volume, found.value)
    ensures found.None? ==> !Busy(s, volume)
  {
    var todo := s.attachments.Keys;
    while todo != {}
      invariant todo <= s.attachments.Keys
      invariant forall x :: x in s.attachments && x !in todo ==> !IsLiveOn(s, volume, x)
      decreases todo
    {
      var x :| x in todo;
      if s.attachments[x].link.volume == volume && s.attachments[x].state != DETACHED {
        return Some(x);
      }
      todo := todo - {x};
    }
    found := None;
  }

  method FindNamed(s: Platform, p: Principal, name: string) returns (found: Option<string>)
    ensures found.Some? ==> IsNamed(s, p, name, found.value)
    ensures found.None? ==> forall k :: !IsNamed(s, p, name, k)
  {
    var todo := s.volumes.Keys;
    while todo != {}
      invariant todo <= s.volumes.Keys
      invariant forall k :: k in s.volumes && k !in todo ==> !IsNamed(s, p, name, k)
      decreases todo
    {
      var k :| k in todo;
      if Owned(p, s.volumes[k]) && s.volumes[k].spec.name == name {
        return Some(k);
      }
      todo := todo - {k};
    }
    found := None;
  }

  method FindLatest(s: Platform, volume: string, instance: string) returns (found: Option<string>)
    ensures found.Some? ==> IsLatest(s, volume, instance, found.value)
    ensures found.None? ==> forall x :: x in s.attachments ==> !InScope(s.attachments[x], volume, instance)
  {
    found := None;
    var todo := s.attachments.Keys;
    while todo != {}
      invariant todo <= s.attachments.Keys
      invariant found.Some? ==> found.value in s.attachments && InScope(s.attachments[found.value], volume, instance)
      invariant forall x :: x in s.attachments && x !in todo && InScope(s.attachments[x], volume, instance) ==>
        found.Some? && s.attachments[x].link.generation <= s.attachments[found.value].link.generation
      decreases todo
    {
      var x :| x in todo;
      var c := s.attachments[x];
      if c.link.volume == volume && (instance == "" || c.link.instance == instance)
         && (found == None || c.link.generation > s.attachments[found.value].link.generation) {
        found := Some(x);
      }
      todo := todo - {x};
    }
  }

  // ----- the API -----

  method ApplyVolume(cfg: Config, p: Principal, op: Op, r: Request, newID: string, s: Platform)
    returns (out: Reply, t: Platform)
    requires PlatformOk(cfg, s) && p.role == "controller"
    requires op in {CreateVolume, GetVolume, DeleteVolume, ResizeVolume}
    ensures Applied(out, t) == Apply(cfg, p, op, r, newID, s)
  {
    t := s;
    if op == CreateVolume {
      if !ValidID(r.name) || r.size <= 0 || r.size > MAX_SIZE || r.kind != "standard"
          || !ZoneKnown(cfg, r.region, r.zone) {
        return Rejected(InvalidArgument), s;
      }
      if (r.mode != "mount" && r.mode != "block")
         || (r.mode == "mount" && r.fsType != "ext4" && r.fsType != "xfs")
         || (r.mode == "block" && r.fsType != "") {
        return Rejected(InvalidArgument), s;
      }
      var found := FindNamed(s, p, r.name);
      if found.Some? {
        var v := s.volumes[found.value];
        NamedUnique(cfg, s, p, r.name, found.value);
        if v.deleteRequested || v.spec.initialSize != r.size || v.spec.kind != r.kind || v.spec.region != r.region
           || v.spec.zone != r.zone || v.spec.mode != r.mode || v.spec.fsType != r.fsType {
          return Rejected(AlreadyExists), s;
        }
        return Done(Some(v), None, None), s;
      }
      var v := NewVolume(p, r, newID);
      t := t.(volumes := t.volumes[newID := v]);
      return Done(Some(v), None, None), t;
    }
    if r.id !in s.volumes {
      return if op == DeleteVolume then NOTHING else Rejected(NotFound), s;
    }
    var v := s.volumes[r.id];
    if !Owned(p, v) {
      return Rejected(PermissionDenied), s;
    }
    if op == DeleteVolume {
      var live := FindLive(s, r.id);
      if live.Some? {
        return Rejected(FailedPrecondition), s;
      }
      v := v.(deleteRequested := true);
      if v.state != DELETED {
        v := v.(state := DELETING);
      }
    }
    if op == ResizeVolume {
      if v.deleteRequested || v.state == CREATING || r.size < v.desired || r.size > MAX_SIZE {
        return Rejected(FailedPrecondition), s;
      }
      v := v.(desired := r.size);
      if v.size < r.size {
        v := v.(state := RESIZING);
      }
    }
    t := t.(volumes := t.volumes[r.id := v]);
    assert op == GetVolume ==> t == s;
    out := Done(Some(v), None, None);
  }

  method ApplyAttachment(cfg: Config, p: Principal, op: Op, r: Request, newID: string, s: Platform)
    returns (out: Reply, t: Platform)
    requires ConfigOk(cfg) && PlatformOk(cfg, s) && p.role == "controller" && Fresh(s, newID)
    requires op in {CreateAttachment, GetAttachment, DeleteAttachment}
    ensures Applied(out, t) == Apply(cfg, p, op, r, newID, s)
  {
    hide ValidID, Busy, Owned, AttachmentsOk, GenerationsDistinct, NamesUnique;
    t := s;
    if op == CreateAttachment {
      if r.volume !in s.volumes || !Owned(p, s.volumes[r.volume]) {
        return Rejected(PermissionDenied), s;
      }
      var v := s.volumes[r.volume];
      assert VolumeOk(r.volume, v);
      if !InstanceAllowed(cfg, p, r.instance) {
        return Rejected(PermissionDenied), s;
      }
      var i := cfg.instances[r.instance];
      if i.region != v.spec.region || i.zone != v.spec.zone {
        return Rejected(FailedPrecondition), s;
      }
      if v.deleteRequested || v.state != AVAILABLE || v.lastError != Clear {
        return Rejected(FailedPrecondition), s;
      }
      var live := FindLive(s, v.id);
      if live.Some? {
        LiveUnique(cfg, s, v.id, live.value);
        var a := s.attachments[live.value];
        if a.link.instance != i.id || a.deleteRequested {
          return Rejected(FailedPrecondition), s;
        }
        return Done(None, Some(a), None), s;
      }
      v := v.(generation := v.generation + 1);
      var a := Attachment(newID, Link(v.spec.tenant, v.spec.cluster, v.id, i.id, v.generation), ATTACHING, false, {},
          Clear);
      t := Platform(t.volumes[r.volume := v], t.attachments[newID := a]);
      return Done(None, Some(a), None), t;
    }
    var found := if r.id in s.attachments then Some(r.id) else None;
    if r.id == "" {
      assert "" !in s.attachments by { EmptyUnused(cfg, s); }
      found := FindLatest(s, r.volume, r.instance);
      LatestUnique(cfg, s, r.volume, r.instance, found);
    }
    if found == None {
      return if op == DeleteAttachment then NOTHING else Rejected(NotFound), s;
    }
    var a := s.attachments[found.value];
    if a.link.tenant != p.tenant || a.link.cluster != p.cluster {
      return Rejected(PermissionDenied), s;
    }
    if op == DeleteAttachment && a.state != DETACHED {
      a := a.(deleteRequested := true);
      a := a.(state := DETACHING);
    }
    t := WithAttachment(t, found.value, a);
    assert op == GetAttachment ==> t == s;
    out := Done(None, Some(a), None);
  }

  method ApplyNode(cfg: Config, p: Principal, op: Op, r: Request, s: Platform) returns (out: Reply, t: Platform)
    requires ConfigOk(cfg) && PlatformOk(cfg, s)
    ensures Applied(out, t) == NodeCall(cfg, p, op, r, s)
  {
    if !InstanceAllowed(cfg, p, p.instance) {
      return Rejected(PermissionDenied), s;
    }
    var i := cfg.instances[p.instance];
    if op == NodeSelf {
      return Done(None, None, Some(i)), s;
    }
    if op != AcquireUse && op != CheckUse && op != ReleaseUse && op != RecordPublish && op != MarkInitialized {
      return Rejected(PermissionDenied), s;
    }
    out, t := ApplyUse(cfg, i, op, r, s);
  }

  method ApplyUse(ghost cfg: Config, i: Instance, op: Op, r: Request, s: Platform) returns (out: Reply, t: Platform)
    requires PlatformOk(cfg, s) && IsUseOp(op)
    ensures Applied(out, t) == UseCall(i, op, r, s)
  {
    hide PlatformOk, ValidID, GrantedUse;
    OkLinksIn(cfg, s);
    t := s;
    if r.attachment !in s.attachments {
      return Rejected(PermissionDenied), s;
    }
    var a := s.attachments[r.attachment];
    if a.link.tenant != i.tenant || a.link.cluster != i.cluster || a.link.volume != r.volume
       || a.link.instance != i.id || a.link.generation != r.generation {
      return Rejected(PermissionDenied), s;
    }
    if !ValidID(r.use) {
      return Rejected(InvalidArgument), s;
    }
    var v := s.volumes[a.link.volume];
    if op == ReleaseUse {
      a := a.(uses := a.uses - {r.use});
      t := WithAttachment(t, r.attachment, a);
      return Done(Some(v), Some(a), None), t;
    }
    out, t := ApplyGranted(op, r, a, v, s);
  }

  method ApplyGranted(op: Op, r: Request, attachment: Attachment, volume: Volume, s: Platform)
    returns (out: Reply, t: Platform)
    requires IsUseOp(op) && op != ReleaseUse
    requires Look(s.attachments, r.attachment) == Some(attachment) && Look(s.volumes, r.volume) == Some(volume)
    ensures Applied(out, t) == GrantedUse(op, r, attachment, volume, s)
  {
    t := s;
    var a, v := attachment, volume;
    if a.state != ATTACHED || a.deleteRequested || a.lastError != Clear || v.lastError != Clear || v.deleteRequested {
      return Rejected(FailedPrecondition), s;
    }
    if op == AcquireUse {
      if r.mode != v.spec.mode || r.fsType != v.spec.fsType {
        return Rejected(InvalidArgument), s;
      }
      a := a.(uses := a.uses + {r.use});
      t := WithAttachment(t, r.attachment, a);
      return Done(Some(v), Some(a), None), t;
    }
    if r.use !in a.uses {
      return Rejected(FailedPrecondition), s;
    }
    if op == MarkInitialized {
      v := v.(allowFormat := false);
      t := t.(volumes := t.volumes[r.volume := v]);
    }
    if op == RecordPublish && !ValidID(r.podUID) {
      return Rejected(InvalidArgument), s;
    }
    out := Done(Some(v), Some(a), None);
  }

  // ----- the engine -----

  class Engine {
    var volumes: map<string, Volume>
    var attachments: map<string, Attachment>
    var cfg: Config
    const cloud: Fake
    const log: AuditLog

    function State(): Platform
      reads this
    {
      Platform(volumes, attachments)
    }

    function Sight(): View
      reads this, cloud
    {
      View(State(), cloud.disks)
    }

    ghost predicate Valid()
      reads this, log
    {
      ConfigOk(cfg) && PlatformOk(cfg, State()) && log.Valid()
    }

    constructor (cfg: Config)
      requires ConfigOk(cfg)
      ensures Valid() && State() == Platform(map[], map[]) && cloud.disks == map[] && log.entries == map[]
      ensures this.cfg == cfg && fresh(cloud) && fresh(log)
    {
      volumes, attachments := map[], map[];
      this.cfg := cfg;
      cloud := new Fake();
      log := new AuditLog();
    }

    /** One serialized API call. A rejected call is audited and changes nothing else; any call adds exactly one audit
        entry and overwrites none. */
    method Call(p: Principal, op: Op, r: Request, newID: string, when: string) returns (out: Reply)
      requires Valid() && (p.role == "node" || Fresh(State(), newID)) && log.sequence + 1 < SEQUENCE_LIMIT
      modifies this`volumes, this`attachments, log
      ensures Valid()
      ensures Applied(out, State()) == Apply(cfg, p, op, r, newID, old(State()))
      ensures out.Rejected? ==> State() == old(State())
      ensures log.sequence == old(log.sequence) + 1
      ensures exists key :: key !in old(log.entries) && log.entries == old(log.entries)[key := Entry(p, op, r, out)]
    {
      hide PlatformOk, CreateVolumeCall, VolumeCall, CreateAttachmentCall, AttachmentCall, NodeCall, Evolves;
      var s, t := Platform(volumes, attachments), Platform(volumes, attachments);
      out := Rejected(PermissionDenied);
      if p.role == "node" {
        out, t := ApplyNode(cfg, p, op, r, s);
      } else if p.role == "controller" {
        out := Rejected(Unimplemented);
        match op {
          case GetInstance =>
            out := if InstanceAllowed(cfg, p, r.instance)
              then Done(None, None, Some(cfg.instances[r.instance]))
              else Rejected(PermissionDenied);
          case CreateVolume | GetVolume | DeleteVolume | ResizeVolume =>
            out, t := ApplyVolume(cfg, p, op, r, newID, s);
          case CreateAttachment | GetAttachment | DeleteAttachment =>
            out, t := ApplyAttachment(cfg, p, op, r, newID, s);
          case _ =>
        }
      }
      RejectionsChangeNothing(cfg, p, op, r, newID, s);
      ApplyKeeps(cfg, p, op, r, newID, s);
      var key := log.Append(when, Entry(p, op, r, out));
      if !out.Rejected? {
        volumes, attachments := t.volumes, t.attachments;
      }
    }

    /** The body of the volume loop, on the transaction's copy `s`. */
    method ReconcileVolume(s: Platform, k: string, f: Faults) returns (t: Platform)
      requires k in s.volumes && s.volumes[k].id == k
      modifies cloud
      ensures View(t, cloud.disks) == StepVolume(View(s, old(cloud.disks)), k, f)
    {
      var v := s.volumes[k];
      t := s;
      PutBack(cloud.disks, k);
      if v.state == DELETED {
        assert t.volumes == t.volumes[k := v];
        return;
      }
      v := v.(lastError := Clear);
      var err := Clear;
      if v.deleteRequested {
        var live := FindLive(s, v.id);
        if live.Some? {
          return t.(volumes := t.volumes[k := v]);
        }
        err := cloud.DeleteVolume(v.id, f.call);
        if err == Clear {
          v := v.(state := DELETED);
        }
      } else {
        var observed, observeErr := cloud.GetVolume(v.id, f.get);
        if observeErr != Clear {
          v := v.(lastError := observeErr);
          return t.(volumes := t.volumes[k := v]);
        }
        if observed.None? && v.state != CREATING {
          v := v.(lastError := DiskGone);
          return t.(volumes := t.volumes[k := v]);
        }
        var d: Disk;
        if observed.Some? && observed.value.size >= v.desired {
          d := observed.value;
        } else {
          d, err := cloud.EnsureVolume(v, f.call);
        }
        if err == Clear {
          if v.deviceKey != "" && v.deviceKey != d.deviceKey {
            v := v.(lastError := DeviceChanged);
            return t.(volumes := t.volumes[k := v]);
          }
          v := v.(size := d.size);
          v := v.(deviceKey := d.deviceKey);
          v := v.(state := AVAILABLE);
        }
      }
      if err != Clear {
        v := v.(lastError := err);
      }
      t := t.(volumes := t.volumes[k := v]);
    }

    /** The body of the attachment loop, on the transaction's copy `s`. */
    method ReconcileAttachment(s: Platform, x: string, f: Faults) returns (t: Platform)
      requires x in s.attachments && s.attachments[x].id == x && s.attachments[x].link.volume in s.volumes
      modifies cloud
      ensures View(t, cloud.disks) == StepAttachment(cfg, View(s, old(cloud.disks)), x, f)
    {
      var a := s.attachments[x];
      t := s;
      PutBack(cloud.disks, a.link.volume);
      if a.state == DETACHED {
        assert t.attachments == t.attachments[x := a];
        return;
      }
      a := a.(lastError := Clear);
      var err := Clear;
      if a.deleteRequested {
        if |a.uses| > 0 {
          return WithAttachment(t, x, a);
        }
        err := cloud.EnsureDetached(a.link.volume, a.link.instance, a.id, f.call);
        if err == Clear {
          a := a.(state := DETACHED);
        }
      } else {
        if !(a.link.instance in cfg.instances) || !cfg.instances[a.link.instance].active {
          a := a.(lastError := Fencing);
          return WithAttachment(t, x, a);
        }
        var d, getErr := cloud.GetVolume(a.link.volume, f.get);
        if getErr != Clear {
          a := a.(lastError := getErr);
          return WithAttachment(t, x, a);
        }
        if a.state == ATTACHED && |a.uses| > 0
           && (d.None? || d.value.instance != a.link.instance || d.value.attachment != a.id) {
          a := a.(lastError := Drifted);
          return WithAttachment(t, x, a);
        }
        if s.volumes[a.link.volume].lastError != Clear {
          return WithAttachment(t, x, a);
        }
        err := cloud.EnsureAttached(a.link.volume, a.link.instance, a.id, f.call);
        if err == Clear {
          a := a.(state := ATTACHED);
        }
      }
      if err != Clear {
        a := a.(lastError := err);
      }
      t := WithAttachment(t, x, a);
    }

    /** The volume loop, over any order, on the transaction's copy; `left` is how many more items the process lives. */
    method VolumePass(orc: Oracle, budget: nat, s: Platform) 
      returns (t: Platform, left: nat, finished: bool, ghost done: set<string>)
      requires PlatformOk(cfg, s)
      modifies cloud
      ensures done <= s.volumes.Keys && PlatformOk(cfg, t)
      ensures View(t, cloud.disks) == Midway(cfg, View(s, old(cloud.disks)), orc, Items(done, {}))
      ensures finished ==> done == s.volumes.Keys
      ensures |s.volumes| <= budget ==> finished && left == budget - |s.volumes|
    {
      hide PlatformOk, Midway, StepVolume;
      ghost var w := View(s, cloud.disks);
      t, left, done := s, budget, {};
      NothingDone(cfg, w, orc);
      var todo := s.volumes.Keys;
      while todo != {} && left != 0
        invariant todo <= s.volumes.Keys && done == s.volumes.Keys - todo
        invariant View(t, cloud.disks) == Midway(cfg, w, orc, Items(done, {})) && PlatformOk(cfg, t)
        invariant |s.volumes| <= budget ==> left == budget - |s.volumes| + |todo|
        decreases todo
      {
        var k :| k in todo;
        VolumeNext(cfg, w, orc, done, k, View(t, cloud.disks));
        t := ReconcileVolume(t, k, orc.volumes(k));
        todo, left, done := todo - {k}, left - 1, done + {k};
      }
      finished := todo == {};
    }

    /** The attachment loop, likewise; `w` is what the run started from. */
    method AttachmentPass(orc: Oracle, budget: nat, s: Platform, ghost w: View)
      returns (t: Platform, finished: bool, ghost done: set<string>)
      requires PlatformOk(cfg, w.platform) && PlatformOk(cfg, s)
      requires View(s, cloud.disks) == Midway(cfg, w, orc, Items(w.platform.volumes.Keys, {}))
      modifies cloud
      ensures done <= w.platform.attachments.Keys && PlatformOk(cfg, t)
      ensures View(t, cloud.disks) == Midway(cfg, w, orc, Items(w.platform.volumes.Keys, done))
      ensures finished ==> done == w.platform.attachments.Keys
      ensures |w.platform.attachments| <= budget ==> finished
    {
      MidwayKeys(cfg, w, orc, Items(w.platform.volumes.Keys, {}));
      hide PlatformOk, Midway, StepAttachment;
      var left := budget;
      t, done := s, {};
      var todo := s.attachments.Keys;
      while todo != {} && left != 0
        invariant todo <= w.platform.attachments.Keys && done == w.platform.attachments.Keys - todo
        invariant View(t, cloud.disks) == Midway(cfg, w, orc, Items(w.platform.volumes.Keys, done))
            && PlatformOk(cfg, t)
        invariant |w.platform.attachments| <= budget ==> |todo| <= left
        decreases todo
      {
        var x :| x in todo;
        AttachmentAdvances(cfg, w, orc, done, x, View(t, cloud.disks));
        StepAttachmentOk(cfg, View(t, cloud.disks), x, orc.attachments(x));
        KeysAreIDs(cfg, t);
        t := ReconcileAttachment(t, x, orc.attachments(x));
        todo, left, done := todo - {x}, left - 1, done + {x};
      }
      finished := todo == {};
    }

    /** A reconcile run in a process that dies after `budget` items. It ranges over the maps in any order. What it
        does to the cloud stays; what it believes is written only when it gets to the end. */
    method Reconcile(orc: Oracle, budget: nat) returns (committed: bool, ghost done: Items)
      requires Valid()
      modifies this`volumes, this`attachments, cloud
      ensures Valid()
      ensures Reachable(old(State()), done)
      ensures cloud.disks == Midway(cfg, old(Sight()), orc, done).cloud
      ensures committed ==> Sight() == Reconciled(cfg, old(Sight()), orc)
      ensures !committed ==> State() == old(State())
      ensures |old(volumes)| + |old(attachments)| <= budget ==> committed
    {
      hide PlatformOk, Midway;
      ghost var w := Sight();
      var s, left, finished, vs := VolumePass(orc, budget, State());
      done, committed := Items(vs, {}), false;
      if finished {
        ghost var xs;
        s, committed, xs := AttachmentPass(orc, left, s, w);
        done := Items(vs, xs);
        if committed {
          volumes, attachments := s.volumes, s.attachments;
        }
      }
    }
  }

  /** One turn of the volume loop, all at once. */
  lemma VolumeNext(cfg: Config, w: View, orc: Oracle, done: set<string>, k: string, m: View)
    requires PlatformOk(cfg, w.platform) && PlatformOk(cfg, m.platform) && k in w.platform.volumes && k !in done
    requires m == Midway(cfg, w, orc, Items(done, {}))
    ensures k in m.platform.volumes && m.platform.volumes[k].id == k
    ensures StepVolume(m, k, orc.volumes(k)) == Midway(cfg, w, orc, Items(done + {k}, {}))
    ensures PlatformOk(cfg, StepVolume(m, k, orc.volumes(k)).platform)
  {
    hide PlatformOk, Midway, StepVolume;
    MidwayKeys(cfg, w, orc, Items(done, {}));
    VolumeAdvances(cfg, w, orc, done, k);
    StepVolumeOk(cfg, m, k, orc.volumes(k));
    KeysAreIDs(cfg, m.platform);
  }

  lemma KeysAreIDs(cfg: Config, s: Platform)
    requires PlatformOk(cfg, s)
    ensures forall k :: k in s.volumes ==> s.volumes[k].id == k
    ensures forall x :: x in s.attachments ==> s.attachments[x].id == x
  {
    forall k | k in s.volumes ensures s.volumes[k].id == k { assert VolumeOk(k, s.volumes[k]); }
    forall x | x in s.attachments ensures s.attachments[x].id == x { assert AttachmentOk(cfg, s, x, s.attachments[x]); }
  }

  lemma RejectionsChangeNothing(cfg: Config, p: Principal, op: Op, r: Request, newID: string, s: Platform)
    ensures Apply(cfg, p, op, r, newID, s).reply.Rejected? ==> Apply(cfg, p, op, r, newID, s).state == s
  {
  }
}
