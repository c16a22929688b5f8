/** The entities of the storage platform: what its database, its cloud and its wire carry. Fields that never change
    after creation are grouped (`spec`, `link`), so "immutable" is one equality. */
module Model {

  datatype Option<+T> = None | Some(value: T)

  function Look<T>(m: map<string, T>, k: string): Option<T> {
    if k in m then Some(m[k]) else None
  }

  // ----- identifiers -----

  predicate AlphaNumeric(c: char) {
    'a' <= c <= 'z' || 'A' <= c <= 'Z' || '0' <= c <= '9'
  }

  predicate IdChar(c: char) {
    AlphaNumeric(c) || c == '.' || c == '_' || c == '-'
  }

  /** A letter or digit, then at most 127 letters, digits, dots, underscores and dashes. */
  predicate ValidID(s: string) {
    1 <= |s| <= 128 && AlphaNumeric(s[0]) && forall i :: 1 <= i < |s| ==> IdChar(s[i])
  }

  // ----- faults -----

  /** What happens to one call across a boundary that can lose it: it works, it fails before its effect, or it takes
      effect and the answer is lost. */
  datatype Fault = Fine | Before(text: string) | After(text: string)

  /** A recorded error, by what it says; `Clear` is the empty text. Texts from outside the model are `Failed`. */
  datatype Trouble =
    | Clear
    | StillAttached      // disk still attached
    | DiskMissing        // disk missing
    | WriterConflict     // cloud single writer conflict
    | IdentityMismatch   // cloud attachment identity mismatch
    | DiskGone           // previously created disk missing; never recreate data implicitly
    | DeviceChanged      // device identity changed; recovery required
    | Fencing            // instance inactive: fencing required
    | Drifted            // cloud state drift with active use: fencing required
    | Failed(text: string)

  // ----- identities and configuration -----

  datatype Principal = Principal(role: string, tenant: string, cluster: string, instance: string)

  datatype Instance = Instance(id: string, tenant: string, cluster: string, region: string, zone: string, active: bool)

  datatype Config = Config(instances: map<string, Instance>, zones: map<string, seq<string>>)

  /** Each key of the registry is the instance's own non-empty ID. */
  ghost predicate ConfigOk(cfg: Config) {
    forall k :: k in cfg.instances ==> cfg.instances[k].id == k && k != ""
  }

  // ----- platform state -----

  datatype VolumeState = CREATING | AVAILABLE | RESIZING | DELETING | DELETED

  datatype VolumeSpec = VolumeSpec(
    tenant: string, cluster: string, name: string, kind: string,
    region: string, zone: string, mode: string, fsType: string, initialSize: int)

  datatype Volume = Volume(
    id: string, spec: VolumeSpec, state: VolumeState, deviceKey: string,
    size: int, desired: int, generation: nat,
    allowFormat: bool, deleteRequested: bool, lastError: Trouble)

  datatype AttachmentState = ATTACHING | ATTACHED | DETACHING | DETACHED

  datatype Link = Link(tenant: string, cluster: string, volume: string, instance: string, generation: nat)

  datatype Attachment = Attachment(
    id: string, link: Link, state: AttachmentState,
    deleteRequested: bool, uses: set<string>, lastError: Trouble)

  datatype Platform = Platform(volumes: map<string, Volume>, attachments: map<string, Attachment>)

  predicate Live(a: Attachment) { a.state != DETACHED }

  predicate Owned(p: Principal, v: Volume) {
    v.spec.tenant == p.tenant && v.spec.cluster == p.cluster
  }

  predicate IsLiveOn(s: Platform, volume: string, x: string) {
    x in s.attachments && s.attachments[x].link.volume == volume && Live(s.attachments[x])
  }

  /** Some live attachment of `volume` exists. */
  ghost predicate Busy(s: Platform, volume: string) {
    exists x :: IsLiveOn(s, volume, x)
  }

  // ----- requests and replies -----

  datatype Op =
    | GetInstance | CreateVolume | GetVolume | DeleteVolume | ResizeVolume
    | CreateAttachment | GetAttachment | DeleteAttachment
    | NodeSelf | AcquireUse | CheckUse | ReleaseUse | RecordPublish | MarkInitialized
    | OtherOp

  datatype Request = Request(
    id: string, name: string, kind: string, region: string, zone: string, mode: string, fsType: string,
    volume: string, instance: string, attachment: string, use: string, podUID: string,
    size: int, generation: nat)

  const BLANK := Request("", "", "", "", "", "", "", "", "", "", "", "", 0, 0)

  datatype Code =
    | OK | InvalidArgument | PermissionDenied | NotFound | AlreadyExists | FailedPrecondition
    | OutOfRange | Aborted | Unavailable | Unimplemented

  datatype Reply =
    | Done(volume: Option<Volume>, attachment: Option<Attachment>, instance: Option<Instance>)
    | Rejected(code: Code)

  const MAX_SIZE := 0x4_0000_0000_0000 // 1 << 50
}
