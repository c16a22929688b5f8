/** The whole system: platform, cloud, reconcile transaction, nodes and the world around them. One event moves it one
    small step; an event that is not possible in a state leaves it as it is. A run is any sequence of events. */
module Systems {
  import opened Model
  import opened Provider
  import opened Calls
  import opened Reconciling
  import opened Passes
  import opened Nodes
  import opened NodeCalls
  import opened Linux

  /** A reconcile run under way: its private copy of the platform, and what its two loops have not visited. */
  datatype Txn = Txn(work: Platform, volumes: set<string>, attachments: set<string>)

  /** `linux` are the nodes whose host probes and formats devices; `signatures` is what a probe of a volume's device
      finds (nothing, unless the map says otherwise); `drifted` are the volumes whose disk something else touched. */
  datatype System = System(
    cfg: Config, platform: Platform, cloud: Cloud, txn: Option<Txn>,
    nodes: map<string, Node>, linux: set<string>,
    signatures: map<string, seq<string>>, drifted: set<string>)

  datatype Event =
    | ApiCall(principal: Principal, op: Op, request: Request, newID: string)
    | SetActive(instance: string, active: bool)
    // one reconcile run, item by item
    | Open
    | VolumeTurn(volume: string, faults: Faults)
    | AttachmentTurn(attachment: string, faults: Faults)
    | Commit
    | Abort
    // out of band
    | DetachDrift(volume: string)
    | DeleteDrift(volume: string)
    | Rewrite(volume: string, found: seq<string>)
    // one node agent, step by step
    | NodeStarts(node: string, rpc: Rpc)
    | NodeCalls(node: string, fault: Fault)
    | NodeSaves(node: string, fault: Fault)
    | NodeHosts(node: string, fault: Fault)
    | NodeCrashes(node: string)

  function Signatures(y: System, k: string): seq<string> {
    if k in y.signatures then y.signatures[k] else []
  }

  /** What the running transaction, or else the database, believes. */
  function Current(y: System): Platform {
    if y.txn.Some? then y.txn.value.work else y.platform
  }

  // ----- the platform's steps -----

  function Activated(cfg: Config, id: string, on: bool): Config {
    if id in cfg.instances then cfg.(instances := cfg.instances[id := cfg.instances[id].(active := on)]) else cfg
  }

  ghost function VolumeTurned(y: System, k: string, f: Faults): (z: System)
    ensures z == y.(cloud := z.cloud, txn := z.txn)
  {
    if y.txn.None? || k !in y.txn.value.volumes || k !in y.txn.value.work.volumes then y
    else
      var t := y.txn.value;
      var u := StepVolume(View(t.work, y.cloud), k, f);
      y.(cloud := u.cloud, txn := Some(t.(work := u.platform, volumes := t.volumes - {k})))
  }

  ghost function AttachmentTurned(y: System, x: string, f: Faults): (z: System)
    ensures z == y.(cloud := z.cloud, txn := z.txn)
  {
    if y.txn.None? || y.txn.value.volumes != {} || x !in y.txn.value.attachments
       || x !in y.txn.value.work.attachments
       || y.txn.value.work.attachments[x].link.volume !in y.txn.value.work.volumes then y
    else
      var t := y.txn.value;
      var u := StepAttachment(y.cfg, View(t.work, y.cloud), x, f);
      y.(cloud := u.cloud, txn := Some(t.(work := u.platform, attachments := t.attachments - {x})))
  }

  function Committed(y: System): System {
    if y.txn.Some? && y.txn.value.volumes == {} && y.txn.value.attachments == {}
    then y.(platform := y.txn.value.work, txn := None) else y
  }

  // ----- the nodes' steps -----

  function WithNode(y: System, i: string, n: Node): System { y.(nodes := y.nodes[i := n]) }

  function Started(y: System, i: string, c: Rpc): System
    requires i in y.nodes
  {
    if y.nodes[i].pc.Idle? then WithNode(y, i, Begin(y.nodes[i], c)) else y
  }

  /** An open transaction holds the database, so a call that gets through has to wait for it. */
  function Called(y: System, i: string, f: Fault): System
    requires i in y.nodes
  {
    if y.txn.Some? && !f.Before? then y
    else
      var x := CallTurn(y.cfg, i, Exchange(y.platform, y.nodes[i]), f);
      WithNode(y, i, x.node).(platform := x.platform)
  }

  /** A real host looks before it mounts. */
  function Probed(y: System, i: string, k: string, f: Fault): System
    requires i in y.nodes && k in y.nodes[i].journal
  {
    var n := y.nodes[i];
    var v := n.journal[k].volume;
    if !f.Fine? then WithNode(y, i, Stop(n, Unavailable))
    else
      match FormatRequired(Signatures(y, k), v.spec.fsType, v.allowFormat)
      case Refuse => WithNode(y, i, Stop(n, Unavailable))
      case FormatFirst => WithNode(y, i, n.(pc := Formatting(k)))
      case MountIt => WithNode(y, i, n.(pc := Placing(k)))
  }

  /** mkfs, which leaves the device with the file system's own signature. */
  function Formatted(y: System, i: string, k: string, f: Fault): System
    requires i in y.nodes && k in y.nodes[i].journal
  {
    var n := y.nodes[i];
    var z := y.(signatures := y.signatures[k := [n.journal[k].volume.spec.fsType]]);
    match f
    case Fine => WithNode(z, i, n.(pc := Placing(k)))
    case Before(_) => WithNode(y, i, Stop(n, Unavailable))
    case After(_) => WithNode(z, i, Stop(n, Unavailable))
  }

  function HostTurned(y: System, i: string, f: Fault): (z: System)
    requires i in y.nodes
    ensures z == y.(nodes := z.nodes, signatures := z.signatures) && i in z.nodes && z.nodes == y.nodes[i := z.nodes[i]]
  {
    var n := y.nodes[i];
    if n.pc.Mounting? && n.pc.volume in n.journal && i in y.linux
       && Probes(n.journal[n.pc.volume].volume, n.journal[n.pc.volume].path, n.mounts) then Probed(y, i, n.pc.volume, f)
    else if n.pc.Formatting? && n.pc.volume in n.journal then Formatted(y, i, n.pc.volume, f)
    else WithNode(y, i, HostStep(n, f))
  }

  // ----- any step -----

  /** Nothing writes to a device from outside between a node's probe of it and its mkfs. */
  ghost predicate BeingFormatted(y: System, k: string) {
    exists i :: i in y.nodes && y.nodes[i].pc == Formatting(k)
  }

  ghost function Step(y: System, e: Event): System {
    match e
    case ApiCall(p, op, r, newID) =>
      if y.txn.Some? || p.role == "node" || !Fresh(y.platform, newID) then y
      else y.(platform := Apply(y.cfg, p, op, r, newID, y.platform).state)
    case SetActive(id, on) => if y.txn.Some? then y else y.(cfg := Activated(y.cfg, id, on))
    case Open =>
      if y.txn.Some? then y
      else y.(txn := Some(Txn(y.platform, y.platform.volumes.Keys, y.platform.attachments.Keys)))
    case VolumeTurn(k, f) => VolumeTurned(y, k, f)
    case AttachmentTurn(x, f) => AttachmentTurned(y, x, f)
    case Commit => Committed(y)
    case Abort => y.(txn := None)
    case DetachDrift(k) =>
      if k in y.cloud
      then y.(cloud := y.cloud[k := y.cloud[k].(instance := "", attachment := "")], drifted := y.drifted + {k})
      else y
    case DeleteDrift(k) => y.(cloud := y.cloud - {k}, drifted := y.drifted + {k})
    case Rewrite(k, found) => if BeingFormatted(y, k) then y else y.(signatures := y.signatures[k := found])
    case NodeStarts(i, c) => if i in y.nodes then Started(y, i, c) else y
    case NodeCalls(i, f) => if i in y.nodes then Called(y, i, f) else y
    case NodeSaves(i, f) => if i in y.nodes then WithNode(y, i, Saved(y.nodes[i], f)) else y
    case NodeHosts(i, f) => if i in y.nodes then HostTurned(y, i, f) else y
    case NodeCrashes(i) => if i in y.nodes then WithNode(y, i, Crashed(y.nodes[i])) else y
  }

  /** Empty stores and idle nodes. */
  ghost predicate Init(y: System) {
    && ConfigOk(y.cfg)
    && y.platform == Platform(map[], map[]) && y.cloud == map[] && y.txn == None
    && (forall i :: i in y.nodes ==> y.nodes[i] == Node(y.nodes[i].hash, map[], map[], Idle(OK)))
    && y.drifted == {}
  }

  ghost function Run(y: System, es: seq<Event>): System
    decreases |es|
  {
    if es == [] then y else Run(Step(y, es[0]), es[1..])
  }
}
