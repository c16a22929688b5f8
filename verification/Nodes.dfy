/** The node agent as a machine of small steps: API call, journal save and host effect, one at a time. The agent's
    mutex lets one RPC run at a time, so one program counter is enough. */
module Nodes {
  import opened Model
  import opened Wire
  import opened Hosts

  datatype Target = Target(readOnly: bool, podUID: string)

  datatype Stage = Stage(volume: Volume, proof: Request, path: string, ready: bool, targets: map<string, Target>)

  type Journal = map<string, Stage>

  /** The fingerprint of (volume, staging path, generation); any function will do. */
  type UseHash = (string, string, nat) -> string

  // ----- requests; `...Ok` is the verdict of the path check -----

  datatype StageRequest = StageRequest(volume: string, path: string, pathOk: bool, capability: Capability,
      context: map<string, string>)

  datatype PublishRequest = PublishRequest(
    volume: string, staging: string, stagingOk: bool, target: string, targetOk: bool,
    capability: Capability, context: map<string, string>, readOnly: bool, podUID: string)

  datatype Rpc =
    | StageVolume(stage: StageRequest)
    | PublishVolume(publish: PublishRequest)
    | UnpublishVolume(volume: string, target: string, targetOk: bool)
    | UnstageVolume(volume: string, path: string, pathOk: bool)
    | ExpandVolume(volume: string, path: string, pathOk: bool, required: int, limit: int)

  // ----- the machine -----

  /** What the agent is about to do. `Idle` carries the code the last RPC returned. */
  datatype PC =
    | Idle(code: Code)
    // NodeStageVolume
    | Acquiring(proof: Request, path: string)
    | Recording(volume: string, stage: Stage)
    | Mounting(volume: string)
    | Formatting(volume: string)
    | Placing(volume: string)
    | Marking(volume: string)
    | Finishing(volume: string)
    // NodePublishVolume
    | Permitting(volume: string, target: string, wanted: Target)
    | Noting(volume: string, target: string, wanted: Target)
    | Binding(volume: string, target: string)
    // NodeUnpublishVolume
    | Unbinding(volume: string, target: string)
    | Forgetting(volume: string, target: string)
    // NodeUnstageVolume
    | Unmounting(volume: string)
    | Releasing(volume: string)
    | Erasing(volume: string)
    // NodeExpandVolume
    | Checking(volume: string, required: int, limit: int)
    | Growing(volume: string, record: Volume, required: int, limit: int)
    | Updating(volume: string, record: Volume, required: int, limit: int)

  /** The journal and the mount table survive a crash of the agent; the program counter does not. */
  datatype Node = Node(hash: UseHash, journal: Journal, mounts: Mounts, pc: PC)

  function Stop(n: Node, code: Code): Node { n.(pc := Idle(code)) }

  predicate Matches(s: Stage, m: Mode, path: string, p: Request) {
    && s.path == path
    && s.volume.spec.mode == m.mode && s.volume.spec.fsType == m.fsType
    && s.proof.attachment == p.attachment && s.proof.generation == p.generation
  }

  /** Another volume's journal entry stages or publishes here. */
  predicate OwnedByOther(j: Journal, volume: string, path: string) {
    exists k :: k in j && k != volume
        && (j[k].path == path || (path in j[k].targets && j[k].targets[path].podUID != ""))
  }

  predicate TargetTaken(j: Journal, volume: string, target: string) {
    exists k :: k in j && (j[k].path == target || (k != volume && target in j[k].targets))
  }

  function UseProof(hash: UseHash, p: Request, m: Mode, path: string): Request {
    p.(use := hash(p.volume, path, p.generation), mode := m.mode, fsType := m.fsType)
  }

  function BeginStage(n: Node, r: StageRequest): (b: Node)
    ensures b == n.(pc := b.pc)
  {
    if r.volume == "" || !r.pathOk then Stop(n, InvalidArgument)
    else
      var m, q := ModeOf(r.capability), ProofOf(r.volume, r.context);
      if m.None? then Stop(n, InvalidArgument)
      else if q.None? then Stop(n, PermissionDenied)
      else
        var p := UseProof(n.hash, q.value, m.value, r.path);
        if r.volume in n.journal && !Matches(n.journal[r.volume], m.value, r.path, p) then Stop(n, AlreadyExists)
        else if OwnedByOther(n.journal, r.volume, r.path) then Stop(n, AlreadyExists)
        else n.(pc := Acquiring(p, r.path))
  }

  function BeginPublish(n: Node, r: PublishRequest): (b: Node)
    ensures b == n.(pc := b.pc)
  {
    if r.volume == "" || !r.targetOk || !r.stagingOk || r.target == r.staging then Stop(n, InvalidArgument)
    else
      var m, p := ModeOf(r.capability), ProofOf(r.volume, r.context);
      if m.None? then Stop(n, InvalidArgument)
      else if p.None? then Stop(n, PermissionDenied)
      else if r.volume !in n.journal || !n.journal[r.volume].ready
              || !Matches(n.journal[r.volume], m.value, r.staging, p.value) then Stop(n, FailedPrecondition)
      else if !ValidID(r.podUID) then Stop(n, InvalidArgument)
      else if TargetTaken(n.journal, r.volume, r.target) then Stop(n, AlreadyExists)
      else
        var wanted, targets := Target(r.readOnly, r.podUID), n.journal[r.volume].targets;
        if r.target in targets && targets[r.target] != wanted then Stop(n, AlreadyExists)
        else n.(pc := Permitting(r.volume, r.target, wanted))
  }

  function BeginUnpublish(n: Node, volume: string, target: string, targetOk: bool): (b: Node)
    ensures b == n.(pc := b.pc)
  {
    if volume == "" || !targetOk then Stop(n, InvalidArgument)
    else if volume !in n.journal || target !in n.journal[volume].targets then Stop(n, OK)
    else n.(pc := Unbinding(volume, target))
  }

  function BeginUnstage(n: Node, volume: string, path: string, pathOk: bool): (b: Node)
    ensures b == n.(pc := b.pc)
  {
    if volume == "" || !pathOk then Stop(n, InvalidArgument)
    else if volume !in n.journal then Stop(n, OK)
    else if n.journal[volume].path != path then Stop(n, InvalidArgument)
    else if n.journal[volume].targets != map[] then Stop(n, FailedPrecondition)
    else n.(pc := Unmounting(volume))
  }

  function BeginExpand(n: Node, volume: string, path: string, pathOk: bool, required: int, limit: int): (b: Node)
    ensures b == n.(pc := b.pc)
  {
    if required <= 0 || volume == "" || !pathOk then Stop(n, InvalidArgument)
    else if volume !in n.journal || !n.journal[volume].ready then Stop(n, NotFound)
    else if n.journal[volume].path != path && path !in n.journal[volume].targets then Stop(n, NotFound)
    else n.(pc := Checking(volume, required, limit))
  }

  function Begin(n: Node, c: Rpc): (b: Node)
    ensures b == n.(pc := b.pc)
  {
    match c
    case StageVolume(r) => BeginStage(n, r)
    case PublishVolume(r) => BeginPublish(n, r)
    case UnpublishVolume(v, t, ok) => BeginUnpublish(n, v, t, ok)
    case UnstageVolume(v, p, ok) => BeginUnstage(n, v, p, ok)
    case ExpandVolume(v, p, ok, req, lim) => BeginExpand(n, v, p, ok, req, lim)
  }

  /** The API call the agent is waiting for. */
  function Pending(n: Node): Option<(Op, Request)> {
    match n.pc
    case Acquiring(p, _) => Some((AcquireUse, p))
    case Marking(k) => if k in n.journal then Some((MarkInitialized, n.journal[k].proof)) else None
    case Permitting(k, _, w) =>
      if k in n.journal then Some((RecordPublish, n.journal[k].proof.(podUID := w.podUID))) else None
    case Releasing(k) => if k in n.journal then Some((ReleaseUse, n.journal[k].proof)) else None
    case Checking(k, _, _) => if k in n.journal then Some((CheckUse, n.journal[k].proof)) else None
    case _ => None
  }

  /** The journal record a stage writes before it mounts: the authorized volume over what was there. */
  function StageRecord(j: Journal, p: Request, path: string, v: Volume): Stage {
    if p.volume in j then j[p.volume].(volume := v) else Stage(v, p, path, false, map[])
  }

  /** The agent learns the answer to its pending call. */
  function Answered(n: Node, out: Reply): (r: Node)
    ensures r == n.(pc := r.pc)
    ensures out.Rejected? ==> r == if Pending(n).Some? then Stop(n, out.code) else n
  {
    if out.Rejected? then if Pending(n).Some? then Stop(n, out.code) else n
    else
      match n.pc
      case Acquiring(p, path) =>
        if out.volume.None? then Stop(n, Unavailable)
        else if out.volume.value.spec.mode != p.mode || out.volume.value.spec.fsType != p.fsType
        then Stop(n, InvalidArgument)
        else n.(pc := Recording(p.volume, StageRecord(n.journal, p, path, out.volume.value)))
      case Marking(k) => n.(pc := Finishing(k))
      case Permitting(k, t, w) => n.(pc := Noting(k, t, w))
      case Releasing(k) => n.(pc := Erasing(k))
      case Checking(k, required, limit) =>
        if out.volume.None? then Stop(n, Unavailable)
        else if out.volume.value.size < required then Stop(n, FailedPrecondition)
        else if limit > 0 && out.volume.value.size > limit then Stop(n, OutOfRange)
        else n.(pc := Growing(k, out.volume.value, required, limit))
      case _ => n
  }

  /** The journal the agent is about to write. */
  function Draft(n: Node): Journal {
    var j := n.journal;
    match n.pc
    case Recording(k, s) => j[k := s]
    case Finishing(k) =>
      if k in j then j[k := j[k].(volume := j[k].volume.(allowFormat := false), ready := true)] else j
    case Noting(k, t, w) => if k in j then j[k := j[k].(targets := j[k].targets[t := w])] else j
    case Forgetting(k, t) => if k in j then j[k := j[k].(targets := j[k].targets - {t})] else j
    case Erasing(k) => j - {k}
    case Updating(k, v, _, _) => if k in j then j[k := j[k].(volume := v)] else j
    case _ => j
  }

  function AfterSave(n: Node): PC {
    match n.pc
    case Recording(k, _) => Mounting(k)
    case Noting(k, t, _) => Binding(k, t)
    case _ => Idle(OK)
  }

  predicate Saves(pc: PC) {
    pc.Recording? || pc.Finishing? || pc.Noting? || pc.Forgetting? || pc.Erasing? || pc.Updating?
  }

  function Saved(n: Node, f: Fault): Node {
    if !Saves(n.pc) then n
    else
      match f
      case Fine => n.(journal := Draft(n), pc := AfterSave(n))
      case Before(_) => Stop(n, Unavailable)
      case After(_) => Stop(n.(journal := Draft(n)), Unavailable)
  }

  /** The host effect the agent is about to cause. */
  function HostEffect(n: Node): Option<Hosted> {
    var j, m := n.journal, n.mounts;
    match n.pc
    case Mounting(k) => if k in j then Some(Staged(m, j[k].volume, j[k].path)) else None
    case Placing(k) => if k in j then Some(Staged(m, j[k].volume, j[k].path)) else None
    case Binding(k, t) =>
      if k in j && t in j[k].targets
      then Some(Published(m, j[k].volume, j[k].path, t, j[k].targets[t].readOnly))
      else None
    case Unbinding(_, t) => Some(Unmounted(m, t))
    case Unmounting(k) => if k in j then Some(Unmounted(m, j[k].path)) else None
    case Growing(k, v, _, _) => if k in j then Some(Expanded(m, v, j[k].path)) else None
    case _ => None
  }

  function AfterHost(pc: PC): PC {
    match pc
    case Mounting(k) => Marking(k)
    case Placing(k) => Marking(k)
    case Unbinding(k, t) => Forgetting(k, t)
    case Unmounting(k) => Releasing(k)
    case Growing(k, v, required, limit) => Updating(k, v, required, limit)
    case _ => Idle(OK)
  }

  function HostStep(n: Node, f: Fault): Node {
    var e := HostEffect(n);
    if e.None? then n
    else
      var h := Reached(n.mounts, e.value, f);
      n.(mounts := h.mounts, pc := if h.error == NoError then AfterHost(n.pc) else Idle(Unavailable))
  }

  function Crashed(n: Node): Node { Stop(n, Unavailable) }
}
