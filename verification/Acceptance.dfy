/** When the platform grants a request, and what exactly it then does, field by field. Each condition is one a caller
    could check against the database; each effect leaves everything it does not name as it was. */
module Acceptance {
  import opened Model
  import opened Calls
  import opened Invariants

  /** The instance is registered, active, and of the caller's own tenant and cluster. */
  predicate ActiveOwn(cfg: Config, p: Principal, id: string) {
    && id in cfg.instances && cfg.instances[id].active
    && cfg.instances[id].tenant == p.tenant && cfg.instances[id].cluster == p.cluster
  }

  predicate SameOwner(p: Principal, v: Volume) { v.spec.tenant == p.tenant && v.spec.cluster == p.cluster }

  // ----- uses -----

  /** The proof names an attachment of this volume to the calling machine; anything but a release also needs it
      attached, with no error recorded on it or on its volume, and what the operation itself asks for. */
  ghost predicate MayUse(cfg: Config, p: Principal, op: Op, r: Request, s: Platform) {
    && ActiveOwn(cfg, p, p.instance)
    && r.attachment in s.attachments && ValidID(r.use)
    && var a := s.attachments[r.attachment];
       && a.link.volume == r.volume && a.link.instance == p.instance && a.link.generation == r.generation
       && (op == ReleaseUse ||
            (&& r.volume in s.volumes
             && var v := s.volumes[r.volume];
                && a.state == ATTACHED && a.lastError == Clear && v.lastError == Clear
                && (if op == AcquireUse then r.mode == v.spec.mode && r.fsType == v.spec.fsType else r.use in a.uses)
                && (op == RecordPublish ==> ValidID(r.podUID))))
  }

  lemma UseFacts(cfg: Config, s: Platform, x: string)
    requires ConfigOk(cfg) && PlatformOk(cfg, s) && x in s.attachments
    ensures var a := s.attachments[x];
            && a.link.volume in s.volumes && a.link.instance in cfg.instances
            && cfg.instances[a.link.instance].id == a.link.instance
            && a.link.tenant == cfg.instances[a.link.instance].tenant
            && a.link.cluster == cfg.instances[a.link.instance].cluster
            && (a.state == ATTACHED ==> !a.deleteRequested && !s.volumes[a.link.volume].deleteRequested)
  {
    var a := s.attachments[x];
    assert AttachmentOk(cfg, s, x, a);
    assert VolumeOk(a.link.volume, s.volumes[a.link.volume]);
  }

  /** A use operation is accepted if and only if that holds. */
  lemma UseAcceptedIff(cfg: Config, p: Principal, op: Op, r: Request, s: Platform)
    requires ConfigOk(cfg) && PlatformOk(cfg, s) && IsUseOp(op)
    ensures NodeCall(cfg, p, op, r, s).reply.Done? <==> MayUse(cfg, p, op, r, s)
  {
    hide PlatformOk, ValidID;
    if r.attachment in s.attachments { UseFacts(cfg, s, r.attachment); }
  }

  /** What the operation makes of the uses of the attachment it names. */
  function UsesAfter(op: Op, use: string, uses: set<string>): set<string> {
    if op == AcquireUse then uses + {use} else if op == ReleaseUse then uses - {use} else uses
  }

  /** An accepted use operation changes one set of uses, or withdraws one leave to format, or nothing; and it shows
      the records as it leaves them. */
  lemma UseEffect(cfg: Config, p: Principal, op: Op, r: Request, s: Platform)
    requires ConfigOk(cfg) && PlatformOk(cfg, s) && IsUseOp(op) && NodeCall(cfg, p, op, r, s).reply.Done?
    ensures var ap, x := NodeCall(cfg, p, op, r, s), r.attachment;
            && x in s.attachments && r.volume in s.volumes
            && var a, v := s.attachments[x], s.volumes[r.volume];
               var b := a.(uses := UsesAfter(op, r.use, a.uses));
               var w := if op == MarkInitialized then v.(allowFormat := false) else v;
               && ap.state == Platform(s.volumes[r.volume := w], s.attachments[x := b])
               && ap.reply == Done(Some(w), Some(b), None)
  {
    hide PlatformOk, ValidID;
    if r.attachment in s.attachments { UseFacts(cfg, s, r.attachment); }
    assert s.volumes[r.volume := s.volumes[r.volume]] == s.volumes;
    assert s.attachments[r.attachment := s.attachments[r.attachment]] == s.attachments;
  }

  // ----- attaching -----

  /** The volume is the caller's, available and without error; the machine is the caller's, active, and in the
      volume's own region and zone; and whoever has the volume already is that machine, not on its way out. */
  ghost predicate MayAttach(cfg: Config, p: Principal, k: string, i: string, s: Platform) {
    && k in s.volumes && SameOwner(p, s.volumes[k]) && ActiveOwn(cfg, p, i)
    && cfg.instances[i].region == s.volumes[k].spec.region && cfg.instances[i].zone == s.volumes[k].spec.zone
    && s.volumes[k].state == AVAILABLE && s.volumes[k].lastError == Clear
    && forall x :: IsLiveOn(s, k, x)
        ==> s.attachments[x].link.instance == i && s.attachments[x].state in {ATTACHING, ATTACHED}
  }

  lemma LiveFacts(cfg: Config, s: Platform, k: string)
    requires PlatformOk(cfg, s) && k in s.volumes
    ensures s.volumes[k].id == k && (s.volumes[k].state == AVAILABLE ==> !s.volumes[k].deleteRequested)
    ensures forall x :: IsLiveOn(s, k, x) ==>
      && LiveOn(s, k) == Some(x) && s.attachments[x].id == x
      && (s.attachments[x].deleteRequested <==> s.attachments[x].state == DETACHING)
  {
    assert VolumeOk(k, s.volumes[k]);
    forall x | IsLiveOn(s, k, x)
      ensures LiveOn(s, k) == Some(x) && s.attachments[x].id == x
        && (s.attachments[x].deleteRequested <==> s.attachments[x].state == DETACHING)
    {
      LiveUnique(cfg, s, k, x);
      assert AttachmentOk(cfg, s, x, s.attachments[x]);
    }
  }

  /** An attachment is granted if and only if that holds. */
  lemma AttachAcceptedIff(cfg: Config, p: Principal, r: Request, newID: string, s: Platform)
    requires ConfigOk(cfg) && PlatformOk(cfg, s) && p.role == "controller"
    ensures Apply(cfg, p, CreateAttachment, r, newID, s).reply.Done? <==> MayAttach(cfg, p, r.volume, r.instance, s)
  {
    hide PlatformOk, NewIncarnation;
    if r.volume in s.volumes { LiveFacts(cfg, s, r.volume); }
  }

  /** Granting shows the attachment that is there, or makes one with the next generation; nothing else changes. */
  lemma AttachEffect(cfg: Config, p: Principal, r: Request, newID: string, s: Platform)
    requires ConfigOk(cfg) && PlatformOk(cfg, s) && p.role == "controller" && Fresh(s, newID)
    requires MayAttach(cfg, p, r.volume, r.instance, s)
    ensures var ap, k, v := Apply(cfg, p, CreateAttachment, r, newID, s), r.volume, s.volumes[r.volume];
            var a := Attachment(newID, Link(p.tenant, p.cluster, k, r.instance, v.generation + 1), ATTACHING, false,
                {}, Clear);
            && (forall x :: IsLiveOn(s, k, x) ==> ap == Applied(Done(None, Some(s.attachments[x]), None), s))
            && (!Busy(s, k) ==>
                 && ap.state == Platform(s.volumes[k := v.(generation := v.generation + 1)], s.attachments[newID := a])
                 && ap.reply == Done(None, Some(a), None))
  {
    AttachAcceptedIff(cfg, p, r, newID, s);
    LiveFacts(cfg, s, r.volume);
    assert cfg.instances[r.instance].id == r.instance;
    hide PlatformOk, MayAttach;
  }

  // ----- detaching -----

  /** A detach request touches the newest attachment in its scope: a live one of the caller's begins to drain. */
  lemma DetachEffect(cfg: Config, p: Principal, k: string, i: string, newID: string, s: Platform, x: string)
    requires PlatformOk(cfg, s) && p.role == "controller"
    requires IsLatest(s, k, i, x)
    ensures var ap := Apply(cfg, p, DeleteAttachment, BLANK.(volume := k, instance := i), newID, s);
            var a := s.attachments[x];
            if a.link.tenant != p.tenant || a.link.cluster != p.cluster
            then ap == Applied(Rejected(PermissionDenied), s)
            else
              var b := if a.state == DETACHED then a else a.(state := DETACHING, deleteRequested := true);
              ap == Applied(Done(None, Some(b), None), s.(attachments := s.attachments[x := b]))
  {
    EmptyUnused(cfg, s);
    LatestIsLive(cfg, s, k, i, Latest(s, k, i).value, x);
    hide PlatformOk;
  }

  // ----- deleting -----

  /** A delete is granted if the volume is unknown, or the caller's and without a live attachment. */
  ghost predicate MayDelete(p: Principal, k: string, s: Platform) {
    k !in s.volumes || (SameOwner(p, s.volumes[k]) && forall x :: !IsLiveOn(s, k, x))
  }

  lemma DeleteAcceptedIff(cfg: Config, p: Principal, k: string, newID: string, s: Platform)
    requires p.role == "controller"
    ensures Apply(cfg, p, DeleteVolume, BLANK.(id := k), newID, s).reply.Done? <==> MayDelete(p, k, s)
  {
  }

  /** It marks that volume for deletion and nothing else. A tombstone stays a tombstone. */
  lemma DeleteEffect(cfg: Config, p: Principal, k: string, newID: string, s: Platform)
    requires p.role == "controller" && MayDelete(p, k, s)
    ensures var ap := Apply(cfg, p, DeleteVolume, BLANK.(id := k), newID, s);
            if k !in s.volumes then ap == Applied(Done(None, None, None), s)
            else
              var v := s.volumes[k];
              var w := v.(deleteRequested := true, state := if v.state == DELETED then DELETED else DELETING);
              ap == Applied(Done(Some(w), None, None), s.(volumes := s.volumes[k := w]))
  {
  }

  // ----- resizing -----

  /** A resize is granted if the volume is the caller's, created and not to be deleted, and does not shrink. */
  ghost predicate MayResize(p: Principal, k: string, size: int, s: Platform) {
    && k in s.volumes && SameOwner(p, s.volumes[k]) && s.volumes[k].state in {AVAILABLE, RESIZING}
    && s.volumes[k].desired <= size <= 0x4_0000_0000_0000
  }

  lemma ResizeAcceptedIff(cfg: Config, p: Principal, k: string, size: int, newID: string, s: Platform)
    requires PlatformOk(cfg, s) && p.role == "controller"
    ensures Apply(cfg, p, ResizeVolume, BLANK.(id := k, size := size), newID, s).reply.Done?
        <==> MayResize(p, k, size, s)
  {
    if k in s.volumes { assert VolumeOk(k, s.volumes[k]); }
    hide PlatformOk;
  }

  /** It moves that volume's goal and nothing else: the volume is available only once it has reached it. */
  lemma ResizeEffect(cfg: Config, p: Principal, k: string, size: int, newID: string, s: Platform)
    requires PlatformOk(cfg, s) && p.role == "controller" && MayResize(p, k, size, s)
    ensures var ap := Apply(cfg, p, ResizeVolume, BLANK.(id := k, size := size), newID, s);
            var v := s.volumes[k];
            var w := v.(desired := size, state := if size <= v.size then AVAILABLE else RESIZING);
            ap == Applied(Done(Some(w), None, None), s.(volumes := s.volumes[k := w]))
  {
    ResizeAcceptedIff(cfg, p, k, size, newID, s);
    assert VolumeOk(k, s.volumes[k]);
    hide PlatformOk;
  }

  // ----- creating -----

  /** A volume that may exist: a well-formed name, a size within bounds, the one kind there is, a configured place,
      and one of the three forms. */
  ghost predicate Lawful(cfg: Config, spec: VolumeSpec) {
    && ValidID(spec.name) && 0 < spec.initialSize <= 0x4_0000_0000_0000 && spec.kind == "standard"
    && spec.region in cfg.zones && spec.zone in cfg.zones[spec.region]
    && ((spec.mode == "mount" && spec.fsType == "ext4") || (spec.mode == "mount" && spec.fsType == "xfs")
        || (spec.mode == "block" && spec.fsType == ""))
  }

  /** The specification a create request asks for. */
  function Asked(p: Principal, r: Request): VolumeSpec {
    VolumeSpec(p.tenant, p.cluster, r.name, r.kind, r.region, r.zone, r.mode, r.fsType, r.size)
  }

  ghost predicate SameName(p: Principal, r: Request, v: Volume) { SameOwner(p, v) && v.spec.name == r.name }

  /** A create is granted if what it asks for is lawful, and whatever has its name is just that not to be deleted. */
  ghost predicate MayCreate(cfg: Config, p: Principal, r: Request, s: Platform) {
    && Lawful(cfg, Asked(p, r))
    && forall k :: k in s.volumes && SameName(p, r, s.volumes[k]) ==>
         s.volumes[k].spec == Asked(p, r) && !s.volumes[k].deleteRequested
  }

  lemma NameFacts(cfg: Config, p: Principal, r: Request, s: Platform)
    requires PlatformOk(cfg, s)
    ensures forall k :: k in s.volumes && SameName(p, r, s.volumes[k]) ==> Named(s, p, r.name) == Some(k)
    ensures Named(s, p, r.name).Some? ==>
      Named(s, p, r.name).value in s.volumes && SameName(p, r, s.volumes[Named(s, p, r.name).value])
  {
    forall k | k in s.volumes && SameName(p, r, s.volumes[k]) ensures Named(s, p, r.name) == Some(k) {
      NamedUnique(cfg, s, p, r.name, k);
    }
  }

  lemma CreateAcceptedIff(cfg: Config, p: Principal, r: Request, newID: string, s: Platform)
    requires PlatformOk(cfg, s) && p.role == "controller"
    ensures Apply(cfg, p, CreateVolume, r, newID, s).reply.Done? <==> MayCreate(cfg, p, r, s)
  {
    hide PlatformOk, ValidID;
    NameFacts(cfg, p, r, s);
  }

  /** Granting shows the volume that has the name, or begins one: no disk yet, and leave to format it once. */
  lemma CreateEffect(cfg: Config, p: Principal, r: Request, newID: string, s: Platform)
    requires PlatformOk(cfg, s) && p.role == "controller" && MayCreate(cfg, p, r, s)
    ensures var ap := Apply(cfg, p, CreateVolume, r, newID, s);
            var v := Volume(newID, Asked(p, r), CREATING, "", 0, r.size, 0, true, false, Clear);
            && (forall k :: k in s.volumes && SameName(p, r, s.volumes[k]) ==>
                 ap == Applied(Done(Some(s.volumes[k]), None, None), s))
            && ((forall k :: k in s.volumes ==> !SameName(p, r, s.volumes[k])) ==>
                 ap == Applied(Done(Some(v), None, None), s.(volumes := s.volumes[newID := v])))
  {
    hide PlatformOk, ValidID;
    CreateAcceptedIff(cfg, p, r, newID, s);
    NameFacts(cfg, p, r, s);
  }

  // ----- looking, and not being allowed to -----

  lemma LookEffect(cfg: Config, p: Principal, k: string, newID: string, s: Platform)
    requires p.role == "controller"
    ensures var ap := Apply(cfg, p, GetVolume, BLANK.(id := k), newID, s);
            && ap.state == s
            && (ap.reply.Done? <==> k in s.volumes && SameOwner(p, s.volumes[k]))
            && (ap.reply.Done? ==> ap.reply == Done(Some(s.volumes[k]), None, None))
  {
  }

  /** Looking for an attachment, by its own ID, shows the caller's own and changes nothing. */
  lemma LookForAttachment(cfg: Config, p: Principal, x: string, newID: string, s: Platform)
    requires p.role == "controller" && x in s.attachments
    ensures var ap, a := Apply(cfg, p, GetAttachment, BLANK.(id := x), newID, s), s.attachments[x];
            && ap.state == s
            && ap.reply == if a.link.tenant == p.tenant && a.link.cluster == p.cluster then Done(None, Some(a), None)
                           else Rejected(PermissionDenied)
  {
    assert s.attachments[x := s.attachments[x]] == s.attachments;
  }

  /** A controller sees the machines of its own tenant and cluster, a machine sees itself, and only while they are
      active. */
  lemma InstanceShown(cfg: Config, p: Principal, r: Request, newID: string, s: Platform)
    ensures p.role == "controller" ==>
      Apply(cfg, p, GetInstance, r, newID, s)
      == Applied(if ActiveOwn(cfg, p, r.instance) then Done(None, None, Some(cfg.instances[r.instance]))
          else Rejected(PermissionDenied), s)
    ensures p.role == "node" ==>
      Apply(cfg, p, NodeSelf, r, newID, s)
      == Applied(if ActiveOwn(cfg, p, p.instance) then Done(None, None, Some(cfg.instances[p.instance]))
          else Rejected(PermissionDenied), s)
  {
  }

  /** Machines only use, controllers only manage, and nobody else does anything. */
  lemma RolesAreSeparate(cfg: Config, p: Principal, op: Op, r: Request, newID: string, s: Platform)
    ensures Apply(cfg, p, op, r, newID, s).reply.Done? ==>
      if op in {AcquireUse, CheckUse, ReleaseUse, RecordPublish, MarkInitialized, NodeSelf}
      then p.role == "node" && ActiveOwn(cfg, p, p.instance)
      else p.role == "controller"
    ensures Apply(cfg, p, op, r, newID, s).reply.Rejected? ==> Apply(cfg, p, op, r, newID, s).state == s
  {
    hide ValidID, ProofMatches, Healthy, ResizeAllowed, CreatableVolume, Attachable, Doomed, Resized, Draining;
  }
}
