/** Staging on a host that looks at the device before it mounts it: what it does for every device it can find, as
    events of the whole system. */
module Probing {
  import opened Model
  import opened Provider
  import opened Calls
  import opened Invariants
  import opened Wire
  import opened Hosts
  import opened Nodes
  import opened NodeInvariant
  import opened NodeSteps
  import opened NodeCalls
  import opened Agents
  import opened Backing
  import opened Systems
  import opened SystemInvariant
  import opened Progress
  import opened Turns

  predicate Supported(fs: string) { fs == "ext4" || fs == "xfs" }

  /** Everything the probe found is the volume's own file system, and it found something. */
  predicate CarriesOwn(signatures: seq<string>, fs: string) {
    Supported(fs) && signatures != [] && forall n :: 0 <= n < |signatures| ==> signatures[n] == fs
  }

  /** It found nothing, and the node carries the leave to format. */
  predicate BlankAndGranted(signatures: seq<string>, v: Volume) {
    Supported(v.spec.fsType) && signatures == [] && v.allowFormat
  }

  /** The node as it should be once the volume is mounted: one mount more, of this volume at its path. */
  function Mounted(n: Node, k: string): Node
    requires k in n.journal
  {
    var e := n.journal[k];
    n.(mounts := n.mounts[e.path := Mount(k, DeviceKeyOf(k), e.volume.spec.mode, e.volume.spec.fsType, false,
        e.volume.size)],
       pc := Marking(k))
  }

  /** The node is about to mount a file-system volume where nothing is mounted, on a host that probes. */
  ghost predicate AboutToProbe(y: System, i: string, k: string) {
    && i in y.nodes && i in y.linux && y.nodes[i].pc == Mounting(k) && k in y.nodes[i].journal
    && y.nodes[i].journal[k].volume.spec.mode != "block" && y.nodes[i].journal[k].path !in y.nodes[i].mounts
  }

  lemma RecordNames(y: System, i: string, k: string)
    requires Inv(y) && i in y.nodes && k in y.nodes[i].journal
    ensures y.nodes[i].journal[k].volume.id == k && y.nodes[i].journal[k].volume.deviceKey == DeviceKeyOf(k)
  {
    hide CoreOk, AllApart, MountsOk, PcOk;
    assert NodeFits(y, i, y.nodes[i]);
    assert EntryOk(y.nodes[i].hash, i, y.platform, k, y.nodes[i].journal[k]);
  }

  lemma PlacingMounts(y: System, i: string, k: string)
    requires i in y.nodes && y.nodes[i].pc == Placing(k) && k in y.nodes[i].journal
    requires y.nodes[i].journal[k].path !in y.nodes[i].mounts
    requires y.nodes[i].journal[k].volume.id == k && y.nodes[i].journal[k].volume.deviceKey == DeviceKeyOf(k)
    ensures Step(y, NodeHosts(i, Fine)) == WithNode(y, i, Mounted(y.nodes[i], k))
  {
  }

  /** A device that already carries the volume's file system is mounted, in two turns, and left as it is. */
  lemma OwnIsMounted(y: System, i: string, k: string)
    requires Inv(y) && AboutToProbe(y, i, k)
    requires CarriesOwn(Signatures(y, k), y.nodes[i].journal[k].volume.spec.fsType)
    ensures Step(Step(y, NodeHosts(i, Fine)), NodeHosts(i, Fine)) == WithNode(y, i, Mounted(y.nodes[i], k))
  {
    hide Inv;
    var n := y.nodes[i];
    var y1 := WithNode(y, i, n.(pc := Placing(k)));
    assert Step(y, NodeHosts(i, Fine)) == y1;
    RecordNames(y, i, k);
    PlacingMounts(y1, i, k);
    hide Step;
    assert WithNode(y1, i, Mounted(y1.nodes[i], k)) == WithNode(y, i, Mounted(n, k));
  }

  /** A blank device that may be formatted is formatted and mounted, in three turns. */
  lemma BlankIsFormatted(y: System, i: string, k: string)
    requires Inv(y) && AboutToProbe(y, i, k) && BlankAndGranted(Signatures(y, k), y.nodes[i].journal[k].volume)
    ensures Step(Step(Step(y, NodeHosts(i, Fine)), NodeHosts(i, Fine)), NodeHosts(i, Fine))
         == WithNode(y, i, Mounted(y.nodes[i], k))
              .(signatures := y.signatures[k := [y.nodes[i].journal[k].volume.spec.fsType]])
  {
    hide Inv;
    var n, fs := y.nodes[i], y.nodes[i].journal[k].volume.spec.fsType;
    var y1 := WithNode(y, i, n.(pc := Formatting(k)));
    assert Step(y, NodeHosts(i, Fine)) == y1;
    var y2 := WithNode(y1, i, n.(pc := Placing(k))).(signatures := y.signatures[k := [fs]]);
    FormatsNow(y1, i, k);
    RecordNames(y, i, k);
    PlacingMounts(y2, i, k);
    hide Step;
    assert WithNode(y2, i, Mounted(y2.nodes[i], k))
        == WithNode(y, i, Mounted(n, k)).(signatures := y.signatures[k := [fs]]);
  }

  lemma FormatsNow(y: System, i: string, k: string)
    requires i in y.nodes && y.nodes[i].pc == Formatting(k) && k in y.nodes[i].journal
    ensures var fs := y.nodes[i].journal[k].volume.spec.fsType;
            Step(y, NodeHosts(i, Fine))
            == WithNode(y, i, y.nodes[i].(pc := Placing(k))).(signatures := y.signatures[k := [fs]])
  {
  }

  /** Any other device is refused at once: nothing is mounted and nothing is written. */
  lemma OthersAreRefused(y: System, i: string, k: string)
    requires AboutToProbe(y, i, k)
    requires !CarriesOwn(Signatures(y, k), y.nodes[i].journal[k].volume.spec.fsType)
    requires !BlankAndGranted(Signatures(y, k), y.nodes[i].journal[k].volume)
    ensures Step(y, NodeHosts(i, Fine)) == WithNode(y, i, y.nodes[i].(pc := Idle(Unavailable)))
  {
  }

  // ----- the whole of staging, as events -----

  function Opening(i: string, r: StageRequest): seq<Event> {
    [NodeStarts(i, StageVolume(r)), NodeCalls(i, Fine), NodeSaves(i, Fine)]
  }

  /** As many turns of the host as the device takes. */
  function HostTurns(i: string, turns: nat): seq<Event> { seq(turns, n => NodeHosts(i, Fine)) }

  function Closing(i: string): seq<Event> { [NodeCalls(i, Fine), NodeSaves(i, Fine)] }

  /** The node has its record saved, and the platform stands by to hear that the volume is initialized. */
  ghost predicate ReadyToMount(y: System, i: string, r: StageRequest, u: System) {
    && Inv(u) && i in y.nodes && i in u.nodes && u == WithNode(y, i, u.nodes[i]).(platform := u.platform)
    && u.platform.volumes == y.platform.volumes && u.nodes[i].mounts == y.nodes[i].mounts
    && u.nodes[i].pc == Mounting(r.volume)
    && r.volume in u.nodes[i].journal && r.volume in y.platform.volumes
    && var e := u.nodes[i].journal[r.volume];
       && e.path == r.path && e.volume == y.platform.volumes[r.volume]
       && NodeApply(y.cfg, i, (MarkInitialized, e.proof), u.platform).reply.Done?
  }

  /** The record of an accepted acquire, saved. */
  lemma RecordedAndSaved(cfg: Config, i: string, x: Exchange, r: StageRequest, a: string)
    requires ConfigOk(cfg) && PlatformOk(cfg, x.platform) && DevicesOk(x.platform) && NodeOk(i, x.platform, x.node)
    requires x.node.pc.Idle? && Stageable(cfg, i, x.platform, x.node, r, a)
    ensures var z := SaveTurn(CallTurn(cfg, i, BeginTurn(x, StageVolume(r)), Fine), Fine);
            && z.node == x.node.(journal := z.node.journal, pc := Mounting(r.volume))
            && z.platform.volumes == x.platform.volumes && r.volume in z.node.journal && r.volume in x.platform.volumes
            && var e := z.node.journal[r.volume];
               && e.path == r.path && e.volume == x.platform.volumes[r.volume]
               && NodeApply(cfg, i, (MarkInitialized, e.proof), z.platform).reply.Done?
  {
    hide PlatformOk, DevicesOk, NodeOk, NodeApply, CallTurn, SaveTurn, ContextOf, OwnedByOther;
    var s, n := x.platform, x.node;
    var v := s.volumes[r.volume];
    var p := StageProof(n, r, s.attachments[a], Mode(v.spec.mode, v.spec.fsType));
    var x1 := BeginTurn(x, StageVolume(r));
    StageableBegins(cfg, i, s, n, r, a);
    BeginKeeps(i, s, n, StageVolume(r));
    AttachmentNamed(cfg, s, a);
    RecordAgrees(cfg, i, x1, p, r.path, v);
    HealthyUse(cfg, i, s, p, a, StageRecord(n.journal, p, r.path, v).proof);
    AcquiringTurns(cfg, i, x1, Fine, p, r.path);
    AcquireKeepsVolumes(cfg, i, p, s);
    RecordingTurns(CallTurn(cfg, i, x1, Fine), Fine);
    RecordOf(n.journal, p, r.path, v);
  }

  lemma AcquireKeepsVolumes(cfg: Config, i: string, p: Request, s: Platform)
    ensures NodeApply(cfg, i, (AcquireUse, p), s).state.volumes == s.volumes
  {
    hide ProofMatches, ValidID, Healthy;
  }

  lemma RecordOf(j: Journal, p: Request, path: string, v: Volume)
    ensures StageRecord(j, p, path, v).volume == v
  {
  }

  lemma OpeningReaches(y: System, i: string, r: StageRequest, a: string)
    requires Inv(y) && y.txn.None? && i in y.nodes && y.nodes[i].pc.Idle?
    requires Stageable(y.cfg, i, y.platform, y.nodes[i], r, a)
    ensures ReadyToMount(y, i, r, Run(y, Opening(i, r)))
  {
    hide PlatformOk, NodeOk, Backed, Shadows, SizesOk, Stageable, Step, BeginTurn, CallTurn, SaveTurn, NodeApply;
    var es, x := Opening(i, r), Exchange(y.platform, y.nodes[i]);
    assert NodeFits(y, i, y.nodes[i]);
    RecordedAndSaved(y.cfg, i, x, r, a);
    var y1 := Step(y, es[0]);
    StartsAs(y, i, StageVolume(r));
    var y2 := Step(y1, es[1]);
    CallsAs(y1, i);
    var y3 := Step(y2, es[2]);
    SavesAs(y2, i);
    assert es[1..][1..] == es[2..] && es[2..][1..] == [];
    assert Run(y3, []) == y3 && Run(y2, es[2..]) == y3 && Run(y1, es[1..]) == y3;
    RunKeeps(y, es);
  }

  /** From the mounted volume to the OK. */
  lemma ClosingReaches(y: System, i: string, k: string)
    requires i in y.nodes && y.txn.None? && y.nodes[i].pc == Marking(k) && k in y.nodes[i].journal
    requires NodeApply(y.cfg, i, (MarkInitialized, y.nodes[i].journal[k].proof), y.platform).reply.Done?
    ensures var z, n := Run(y, Closing(i)), y.nodes[i];
            && i in z.nodes && z.nodes[i].pc == Idle(OK) && z.nodes[i].mounts == n.mounts
            && k in z.nodes[i].journal && z.nodes[i].journal[k].ready && z.nodes[i].journal[k].path == n.journal[k].path
            && z.signatures == y.signatures
  {
    hide Step, CallTurn, SaveTurn, NodeApply;
    var es, x := Closing(i), Exchange(y.platform, y.nodes[i]);
    var y1 := Step(y, es[0]);
    CallsAs(y, i);
    MarkingTurns(y.cfg, i, x, Fine, k);
    var x1 := CallTurn(y.cfg, i, x, Fine);
    var y2 := Step(y1, es[1]);
    SavesAs(y1, i);
    FinishedSave(x1, k);
    assert es[1..][1..] == [] && Run(y2, []) == y2 && Run(y1, es[1..]) == y2;
  }

  /** What the device and the node's own table make of the mount: turns of the host until it is done, or none if it
      cannot. */
  function TurnsNeeded(y: System, i: string, r: StageRequest): Option<nat>
    requires i in y.nodes && r.volume in y.platform.volumes
  {
    var v, sigs := y.platform.volumes[r.volume], Signatures(y, r.volume);
    if i !in y.linux || v.spec.mode == "block" || r.path in y.nodes[i].mounts then Some(1)
    else if CarriesOwn(sigs, v.spec.fsType) then Some(2)
    else if BlankAndGranted(sigs, v) then Some(3)
    else None
  }

  lemma HostReaches(y: System, i: string, r: StageRequest, u: System)
    requires i in y.nodes && ReadyToMount(y, i, r, u) && TurnsNeeded(y, i, r).Some?
    ensures var z, n := Run(u, HostTurns(i, TurnsNeeded(y, i, r).value)), u.nodes[i];
            && i in z.nodes && z == u.(nodes := z.nodes, signatures := z.signatures)
            && z.nodes[i] == n.(pc := Marking(r.volume), mounts := z.nodes[i].mounts)
            && r.path in z.nodes[i].mounts && z.nodes[i].mounts[r.path].volume == r.volume
            && Signatures(z, r.volume)
            == if TurnsNeeded(y, i, r).value == 3 then [y.platform.volumes[r.volume].spec.fsType]
                else Signatures(y, r.volume)
  {
    hide Inv, Step, HostTurn, NodeApply;
    var h, t, k, n := NodeHosts(i, Fine), TurnsNeeded(y, i, r).value, r.volume, u.nodes[i];
    Repeats(u, i);
    if t == 1 {
      HostsPlainly(u, i);
      MountsPlainly(u, i, k);
    } else if t == 2 {
      OwnIsMounted(u, i, k);
    } else {
      BlankIsFormatted(u, i, k);
    }
  }

  lemma Repeats(u: System, i: string)
    ensures var h := NodeHosts(i, Fine);
            && Run(u, HostTurns(i, 1)) == Step(u, h) && Run(u, HostTurns(i, 2)) == Step(Step(u, h), h)
            && Run(u, HostTurns(i, 3)) == Step(Step(Step(u, h), h), h)
  {
    hide Step;
    var h := NodeHosts(i, Fine);
    assert HostTurns(i, 3)[1..] == HostTurns(i, 2) && HostTurns(i, 2)[1..] == HostTurns(i, 1)
        && HostTurns(i, 1)[1..] == [];
    assert forall w :: Run(w, []) == w;
    assert forall w :: Run(w, HostTurns(i, 1)) == Step(w, h);
    assert forall w :: Run(w, HostTurns(i, 2)) == Step(Step(w, h), h);
  }

  /** A host that need not probe finds the path free, or its own volume there. */
  lemma MountsPlainly(y: System, i: string, k: string)
    requires Inv(y) && i in y.nodes && y.nodes[i].pc == Mounting(k) && k in y.nodes[i].journal
    ensures var n, x := y.nodes[i], HostTurn(Exchange(y.platform, y.nodes[i]), Fine);
            && x.platform == y.platform && x.node == n.(pc := Marking(k), mounts := x.node.mounts)
            && n.journal[k].path in x.node.mounts && x.node.mounts[n.journal[k].path].volume == k
  {
    hide CoreOk, NodeOk, HostTurn;
    var n, x := y.nodes[i], Exchange(y.platform, y.nodes[i]);
    assert NodeFits(y, i, n);
    NoCollision(i, y.platform, n);
    var done := Staged(n.mounts, n.journal[k].volume, n.journal[k].path);
    Effects(x, Fine, done, done, Marking(k));
    HostKeeps(i, y.platform, n, Fine);
    HostTurnNode(x);
    MountAtOwnPath(i, y.platform, HostStep(n, Fine), k, n.journal[k].path);
  }

  /** With the context of a healthy attachment, a free path and no faults, on any host: staging answers OK, with the
      volume mounted at its path and its record ready, unless the device is one that must not be touched. A blank
      device then carries the volume's own file system; any other is left as it was. */
  lemma StagingSucceedsAnywhere(y: System, i: string, r: StageRequest, a: string)
    requires Inv(y) && y.txn.None? && i in y.nodes && y.nodes[i].pc.Idle?
    requires Stageable(y.cfg, i, y.platform, y.nodes[i], r, a) && TurnsNeeded(y, i, r).Some?
    ensures var z := Run(Run(Run(y, Opening(i, r)), HostTurns(i, TurnsNeeded(y, i, r).value)), Closing(i));
            && i in z.nodes && z.nodes[i].pc == Idle(OK)
            && r.volume in z.nodes[i].journal && z.nodes[i].journal[r.volume].ready
                && z.nodes[i].journal[r.volume].path == r.path
            && r.path in z.nodes[i].mounts && z.nodes[i].mounts[r.path].volume == r.volume
            && Signatures(z, r.volume)
            == if TurnsNeeded(y, i, r) == Some(3) then [y.platform.volumes[r.volume].spec.fsType]
                else Signatures(y, r.volume)
  {
    hide Inv, Stageable, Run, NodeApply;
    var u := Run(y, Opening(i, r));
    OpeningReaches(y, i, r, a);
    HostReaches(y, i, r, u);
    ClosingReaches(Run(u, HostTurns(i, TurnsNeeded(y, i, r).value)), i, r.volume);
  }

  /** And if it is such a device, staging stops at the probe: nothing is mounted, nothing is written, and it is not
      OK. */
  lemma StagingRefuses(y: System, i: string, r: StageRequest, a: string)
    requires Inv(y) && y.txn.None? && i in y.nodes && y.nodes[i].pc.Idle?
    requires Stageable(y.cfg, i, y.platform, y.nodes[i], r, a) && TurnsNeeded(y, i, r).None?
    ensures var z := Run(Run(y, Opening(i, r)), HostTurns(i, 1));
            && i in z.nodes && z.nodes[i].pc == Idle(Unavailable)
            && z.nodes[i].mounts == y.nodes[i].mounts && z.signatures == y.signatures
  {
    hide Inv, Stageable, Step, NodeApply;
    var u := Run(y, Opening(i, r));
    OpeningReaches(y, i, r, a);
    Repeats(u, i);
    OthersAreRefused(u, i, r.volume);
  }
}
