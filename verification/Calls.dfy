/** One API call as a function of the platform state: what it answers and the state it leaves. A rejected call leaves
    the state as it was, because the transaction then writes nothing. */
module Calls {
  import opened Model

  datatype Applied = Applied(reply: Reply, state: Platform)

  function Refuse(code: Code, s: Platform): Applied { Applied(Rejected(code), s) }

  function ShowVolume(v: Volume, s: Platform): Applied { Applied(Done(Some(v), None, None), s) }

  function ShowAttachment(a: Attachment, s: Platform): Applied { Applied(Done(None, Some(a), None), s) }

  /** What a call leaves and what its caller hears, when the connection may fail on the way there or back. */
  function Carried(done: Applied, s: Platform, fault: Fault): Applied {
    match fault
    case Fine => done
    case Before(_) => Refuse(Unavailable, s)
    case After(_) => Refuse(Unavailable, done.state)
  }

  const NOTHING := Done(None, None, None)

  // ----- lookups; the source finds them by ranging over a map in no particular order -----

  predicate IsNamed(s: Platform, p: Principal, name: string, k: string) {
    k in s.volumes && Owned(p, s.volumes[k]) && s.volumes[k].spec.name == name
  }

  ghost function Named(s: Platform, p: Principal, name: string): (r: Option<string>)
    ensures r.Some? ==> IsNamed(s, p, name, r.value)
    ensures r.None? ==> forall k :: !IsNamed(s, p, name, k)
  {
    if exists k :: IsNamed(s, p, name, k) then var k :| IsNamed(s, p, name, k); Some(k) else None
  }

  ghost function LiveOn(s: Platform, volume: string): (r: Option<string>)
    ensures r.Some? ==> IsLiveOn(s, volume, r.value)
    ensures r.Some? <==> Busy(s, volume)
  {
    if Busy(s, volume) then var x :| IsLiveOn(s, volume, x); Some(x) else None
  }

  predicate InScope(a: Attachment, volume: string, instance: string) {
    a.link.volume == volume && (instance == "" || a.link.instance == instance)
  }

  /** `x` is the attachment of highest generation among those of `volume` on `instance` ("" for any). */
  ghost predicate IsLatest(s: Platform, volume: string, instance: string, x: string) {
    && x in s.attachments
    && InScope(s.attachments[x], volume, instance)
    && forall y :: y in s.attachments && InScope(s.attachments[y], volume, instance)
        ==> s.attachments[y].link.generation <= s.attachments[x].link.generation
  }

  ghost function Latest(s: Platform, volume: string, instance: string): (r: Option<string>)
    ensures r.Some? ==> IsLatest(s, volume, instance, r.value)
    ensures r.None? ==> forall x :: !IsLatest(s, volume, instance, x)
  {
    if exists x :: IsLatest(s, volume, instance, x) then var x :| IsLatest(s, volume, instance, x); Some(x) else None
  }

  // ----- authorization -----

  predicate InstanceAllowed(cfg: Config, p: Principal, id: string) {
    && id in cfg.instances
    && cfg.instances[id].active
    && cfg.instances[id].tenant == p.tenant
    && cfg.instances[id].cluster == p.cluster
  }

  predicate ZoneKnown(cfg: Config, region: string, zone: string) {
    region in cfg.zones && zone in cfg.zones[region]
  }

  predicate CapabilityKnown(mode: string, fsType: string) {
    || (mode == "mount" && (fsType == "ext4" || fsType == "xfs"))
    || (mode == "block" && fsType == "")
  }

  predicate CreatableVolume(cfg: Config, r: Request) {
    && ValidID(r.name)
    && 0 < r.size <= MAX_SIZE
    && r.kind == "standard"
    && ZoneKnown(cfg, r.region, r.zone)
    && CapabilityKnown(r.mode, r.fsType)
  }

  function SpecOf(p: Principal, r: Request): VolumeSpec {
    VolumeSpec(p.tenant, p.cluster, r.name, r.kind, r.region, r.zone, r.mode, r.fsType, r.size)
  }

  function NewVolume(p: Principal, r: Request, id: string): Volume {
    Volume(id, SpecOf(p, r), CREATING, "", 0, r.size, 0, true, false, Clear)
  }

  function NewAttachment(v: Volume, instance: string, id: string): Attachment {
    Attachment(id, Link(v.spec.tenant, v.spec.cluster, v.id, instance, v.generation), ATTACHING, false, {}, Clear)
  }

  // ----- controller operations -----

  ghost function CreateVolumeCall(cfg: Config, p: Principal, r: Request, newID: string, s: Platform): Applied {
    if !CreatableVolume(cfg, r) then Refuse(InvalidArgument, s)
    else
      match Named(s, p, r.name)
      case Some(k) =>
        var v := s.volumes[k];
        if v.deleteRequested || v.spec != SpecOf(p, r) then Refuse(AlreadyExists, s) else ShowVolume(v, s)
      case None =>
        var v := NewVolume(p, r, newID);
        ShowVolume(v, s.(volumes := s.volumes[newID := v]))
  }

  /** The volume as a delete request leaves it. */
  function Doomed(v: Volume): Volume {
    v.(deleteRequested := true, state := if v.state == DELETED then DELETED else DELETING)
  }

  predicate ResizeAllowed(v: Volume, size: int) {
    !v.deleteRequested && v.state != CREATING && v.desired <= size <= MAX_SIZE
  }

  /** The volume as a resize request leaves it. */
  function Resized(v: Volume, size: int): Volume {
    v.(desired := size, state := if v.size < size then RESIZING else v.state)
  }

  ghost function VolumeCall(p: Principal, op: Op, r: Request, s: Platform): Applied
    requires op in {GetVolume, DeleteVolume, ResizeVolume}
  {
    if r.id !in s.volumes then
      if op == DeleteVolume then Applied(NOTHING, s) else Refuse(NotFound, s)
    else
      var v := s.volumes[r.id];
      if !Owned(p, v) then Refuse(PermissionDenied, s)
      else if op == DeleteVolume then
        if Busy(s, r.id) then Refuse(FailedPrecondition, s)
        else ShowVolume(Doomed(v), s.(volumes := s.volumes[r.id := Doomed(v)]))
      else if op == ResizeVolume then
        if !ResizeAllowed(v, r.size) then Refuse(FailedPrecondition, s)
        else ShowVolume(Resized(v, r.size), s.(volumes := s.volumes[r.id := Resized(v, r.size)]))
      else ShowVolume(v, s)
  }

  predicate Attachable(v: Volume) {
    !v.deleteRequested && v.state == AVAILABLE && v.lastError == Clear
  }

  /** The volume's counter moves on, and an attachment carrying the new value is born. */
  function NewIncarnation(s: Platform, k: string, instance: string, newID: string): Platform
    requires k in s.volumes
  {
    var w := s.volumes[k].(generation := s.volumes[k].generation + 1);
    Platform(s.volumes[k := w], s.attachments[newID := NewAttachment(w, instance, newID)])
  }

  ghost function CreateAttachmentCall(cfg: Config, p: Principal, r: Request, newID: string, s: Platform): Applied {
    if r.volume !in s.volumes || !Owned(p, s.volumes[r.volume]) then Refuse(PermissionDenied, s)
    else if !InstanceAllowed(cfg, p, r.instance) then Refuse(PermissionDenied, s)
    else
      var v, i := s.volumes[r.volume], cfg.instances[r.instance];
      if i.region != v.spec.region || i.zone != v.spec.zone then Refuse(FailedPrecondition, s)
      else if !Attachable(v) then Refuse(FailedPrecondition, s)
      else
        match LiveOn(s, v.id)
        case Some(x) =>
          var a := s.attachments[x];
          if a.link.instance != i.id || a.deleteRequested then Refuse(FailedPrecondition, s) else ShowAttachment(a, s)
        case None =>
          var t := NewIncarnation(s, r.volume, i.id, newID);
          ShowAttachment(t.attachments[newID], t)
  }

  /** The attachment as a delete request leaves it. */
  function Draining(a: Attachment): Attachment {
    if Live(a) then a.(deleteRequested := true, state := DETACHING) else a
  }

  ghost function Chosen(r: Request, s: Platform): Option<string> {
    if r.id in s.attachments then Some(r.id)
    else if r.id == "" then Latest(s, r.volume, r.instance)
    else None
  }

  ghost function AttachmentCall(p: Principal, op: Op, r: Request, s: Platform): Applied
    requires op in {GetAttachment, DeleteAttachment}
  {
    match Chosen(r, s)
    case None => if op == DeleteAttachment then Applied(NOTHING, s) else Refuse(NotFound, s)
    case Some(x) =>
      if x !in s.attachments then Refuse(NotFound, s)
      else
        var a := s.attachments[x];
        if a.link.tenant != p.tenant || a.link.cluster != p.cluster then Refuse(PermissionDenied, s)
        else if op == DeleteAttachment then
          ShowAttachment(Draining(a), s.(attachments := s.attachments[x := Draining(a)]))
        else ShowAttachment(a, s)
  }

  // ----- node operations -----

  predicate IsUseOp(op: Op) {
    op in {AcquireUse, CheckUse, ReleaseUse, RecordPublish, MarkInitialized}
  }

  /** The proof in the request names an attachment of this instance, this volume and this generation. */
  predicate ProofMatches(i: Instance, r: Request, a: Attachment) {
    a.link == Link(i.tenant, i.cluster, r.volume, i.id, r.generation)
  }

  predicate Healthy(a: Attachment, v: Volume) {
    a.state == ATTACHED && !a.deleteRequested && a.lastError == Clear && v.lastError == Clear && !v.deleteRequested
  }

  function ShowUse(a: Attachment, v: Option<Volume>, s: Platform): Applied { Applied(Done(v, Some(a), None), s) }

  function WithAttachment(s: Platform, x: string, a: Attachment): Platform {
    s.(attachments := s.attachments[x := a])
  }

  /** What an operation other than release does, its proof having matched `a`. */
  function GrantedUse(op: Op, r: Request, a: Attachment, v: Volume, s: Platform): Applied {
    var x := r.attachment;
    if !Healthy(a, v) then Refuse(FailedPrecondition, s)
    else if op == AcquireUse then
      if r.mode != v.spec.mode || r.fsType != v.spec.fsType then Refuse(InvalidArgument, s)
      else
        var b := a.(uses := a.uses + {r.use});
        ShowUse(b, Some(v), WithAttachment(s, x, b))
    else if r.use !in a.uses then Refuse(FailedPrecondition, s)
    else if op == MarkInitialized then
      var w := v.(allowFormat := false);
      ShowUse(a, Some(w), s.(volumes := s.volumes[r.volume := w]))
    else if op == RecordPublish && !ValidID(r.podUID) then Refuse(InvalidArgument, s)
    else ShowUse(a, Some(v), s)
  }

  function UseCall(i: Instance, op: Op, r: Request, s: Platform): Applied
    requires IsUseOp(op)
  {
    var x := r.attachment;
    if x !in s.attachments || !ProofMatches(i, r, s.attachments[x]) then Refuse(PermissionDenied, s)
    else if !ValidID(r.use) then Refuse(InvalidArgument, s)
    else
      var a, v := s.attachments[x], Look(s.volumes, r.volume);
      if op == ReleaseUse then
        var b := a.(uses := a.uses - {r.use});
        ShowUse(b, v, WithAttachment(s, x, b))
      else if v.None? then Refuse(FailedPrecondition, s)
      else GrantedUse(op, r, a, v.value, s)
  }

  function NodeCall(cfg: Config, p: Principal, op: Op, r: Request, s: Platform): Applied {
    if !InstanceAllowed(cfg, p, p.instance) then Refuse(PermissionDenied, s)
    else if op == NodeSelf then Applied(Done(None, None, Some(cfg.instances[p.instance])), s)
    else if !IsUseOp(op) then Refuse(PermissionDenied, s)
    else UseCall(cfg.instances[p.instance], op, r, s)
  }

  ghost function Apply(cfg: Config, p: Principal, op: Op, r: Request, newID: string, s: Platform): Applied {
    if p.role == "node" then NodeCall(cfg, p, op, r, s)
    else if p.role != "controller" then Refuse(PermissionDenied, s)
    else
      match op
      case GetInstance =>
        if InstanceAllowed(cfg, p, r.instance) then Applied(Done(None, None, Some(cfg.instances[r.instance])), s)
        else Refuse(PermissionDenied, s)
      case CreateVolume => CreateVolumeCall(cfg, p, r, newID, s)
      case GetVolume => VolumeCall(p, op, r, s)
      case DeleteVolume => VolumeCall(p, op, r, s)
      case ResizeVolume => VolumeCall(p, op, r, s)
      case CreateAttachment => CreateAttachmentCall(cfg, p, r, newID, s)
      case GetAttachment => AttachmentCall(p, op, r, s)
      case DeleteAttachment => AttachmentCall(p, op, r, s)
      case _ => Refuse(Unimplemented, s)
  }

  /** A new identifier: well formed and used by no object yet. */
  predicate Fresh(s: Platform, id: string) {
    ValidID(id) && id !in s.volumes && id !in s.attachments
  }
}
