/** The inductive invariant of the whole system, and its preservation by every event. */
module SystemInvariant {
  import opened Model
  import opened Provider
  import opened Calls
  import opened Invariants
  import opened Reconciling
  import opened Passes
  import opened Hosts
  import opened Nodes
  import opened NodeInvariant
  import opened NodeSteps
  import opened NodeCalls
  import opened Backing
  import opened Systems

  // ----- the format grant -----

  /** The record that an unfinished stage took from the platform, and will hand to the host. */
  function Grant(n: Node): Option<Volume> {
    match n.pc
    case Recording(_, e) => Some(e.volume)
    case Mounting(k) => if k in n.journal then Some(n.journal[k].volume) else None
    case Formatting(k) => if k in n.journal then Some(n.journal[k].volume) else None
    case Placing(k) => if k in n.journal then Some(n.journal[k].volume) else None
    case _ => None
  }

  /** A leave to format that a node carries is one the platform still gives. */
  ghost predicate GrantOk(s: Platform, n: Node) {
    Grant(n).Some? && Grant(n).value.allowFormat ==> n.pc.volume in s.volumes && s.volumes[n.pc.volume].allowFormat
  }

  /** A node about to format carries such a leave, and the device is blank. */
  ghost predicate FormattingOk(y: System, n: Node) {
    n.pc.Formatting? ==>
      && n.pc.volume in n.journal && n.journal[n.pc.volume].volume.allowFormat
      && Signatures(y, n.pc.volume) == []
  }

  ghost predicate NodeFits(y: System, i: string, n: Node) {
    NodeOk(i, y.platform, n) && GrantOk(y.platform, n) && FormattingOk(y, n)
  }

  ghost predicate NodesFit(y: System) {
    forall i :: i in y.nodes ==> NodeFits(y, i, y.nodes[i])
  }

  ghost predicate CoreOk(y: System) {
    && ConfigOk(y.cfg)
    && Sound(y.cfg, y.platform) && Sound(y.cfg, Current(y))
    && Shadows(y.platform, Current(y))
    && Backed(Current(y), y.cloud, y.drifted)
  }

  ghost predicate Inv(y: System) { CoreOk(y) && NodesFit(y) }

  // ----- one holder -----

  /** The node mounts the volume, or is about to. */
  predicate Engaged(n: Node, k: string) { MountsVolume(n.mounts, k) || Relies(n.pc) == Some(k) }

  /** `x` is what lets node `i` use volume `k`: live, in use, bound to both, and of the volume's latest generation. */
  ghost predicate Secures(s: Platform, i: string, k: string, x: string) {
    && IsLiveOn(s, k, x) && s.attachments[x].uses != {} && s.attachments[x].link.instance == i
  }

  ghost predicate Secured(s: Platform, i: string, k: string) { exists x :: Secures(s, i, k, x) }

  lemma HeldSecures(cfg: Config, s: Platform, h: UseHash, i: string, k: string, e: Stage)
    requires PlatformOk(cfg, s) && EntryOk(h, i, s, k, e) && Held(s, e.proof)
    ensures Secured(s, i, k)
  {
    var x := e.proof.attachment;
    assert AttachmentOk(cfg, s, x, s.attachments[x]);
    assert Secures(s, i, k, x);
  }

  /** Whoever mounts a volume, or is about to, is secured by a live attachment in use. */
  lemma EngagedIsSecured(cfg: Config, i: string, s: Platform, n: Node, k: string)
    requires PlatformOk(cfg, s) && NodeOk(i, s, n) && Engaged(n, k)
    ensures Secured(s, i, k)
  {
    var j := n.journal;
    if MountsVolume(n.mounts, k) {
      var path :| path in n.mounts && n.mounts[path].volume == k;
      assert MountOk(s, j, n.mounts, path, n.mounts[path]);
      HeldSecures(cfg, s, n.hash, i, k, j[k]);
    } else if n.pc.Recording? {
      HeldSecures(cfg, s, n.hash, i, k, n.pc.stage);
    } else {
      HeldSecures(cfg, s, n.hash, i, k, j[k]);
    }
  }

  /** One volume secures one node. */
  lemma OneSecured(cfg: Config, s: Platform, i: string, j: string, k: string)
    requires PlatformOk(cfg, s) && Secured(s, i, k) && Secured(s, j, k)
    ensures i == j
  {
    var x :| Secures(s, i, k, x);
    var y :| Secures(s, j, k, y);
    AtMostOneLive(cfg, s, x, y);
  }

  lemma OneEngaged(cfg: Config, s: Platform, i: string, m: Node, j: string, n: Node, k: string)
    requires PlatformOk(cfg, s) && NodeOk(i, s, m) && NodeOk(j, s, n) && Engaged(m, k) && Engaged(n, k)
    ensures i == j
  {
    EngagedIsSecured(cfg, i, s, m, k);
    EngagedIsSecured(cfg, j, s, n, k);
    OneSecured(cfg, s, i, j, k);
  }

  // ----- the platform's steps, seen by the nodes -----

  /** What no step but a node's own call does: add a use or take one away, or withdraw a leave to format. */
  ghost predicate NodeFrameOk(s: Platform, t: Platform) {
    && Evolves(s, t)
    && (forall x :: x in s.attachments ==> x in t.attachments && t.attachments[x].uses == s.attachments[x].uses)
    && (forall k :: k in s.volumes ==> k in t.volumes && t.volumes[k].allowFormat == s.volumes[k].allowFormat)
  }

  lemma NodesUntouched(y: System, z: System)
    requires NodesFit(y) && z.nodes == y.nodes && z.signatures == y.signatures && NodeFrameOk(y.platform, z.platform)
    ensures NodesFit(z)
  {
    hide NodeOk, Evolves;
    forall i | i in z.nodes ensures NodeFits(z, i, z.nodes[i]) {
      assert NodeFits(y, i, y.nodes[i]);
      NoNamelessMount(i, y.platform, y.nodes[i]);
      NodeFrame(i, y.platform, z.platform, y.nodes[i], "");
    }
  }

  lemma ControllerFrame(cfg: Config, p: Principal, op: Op, r: Request, newID: string, s: Platform)
    requires p.role != "node" && Fresh(s, newID)
    ensures var t := Apply(cfg, p, op, r, newID, s).state;
            && (forall x :: x in s.attachments ==> x in t.attachments && t.attachments[x].uses == s.attachments[x].uses)
            && (forall k :: k in s.volumes ==> k in t.volumes && t.volumes[k].allowFormat == s.volumes[k].allowFormat)
  {
    hide ValidID, CreatableVolume, ResizeAllowed, Attachable, Busy, Owned;
  }

  lemma ApiCallKeeps(y: System, p: Principal, op: Op, r: Request, newID: string)
    requires Inv(y)
    ensures Inv(Step(y, ApiCall(p, op, r, newID)))
  {
    hide Apply, PlatformOk, Evolves, CallFrame, NodesFit, Fresh;
    var s, z := y.platform, Step(y, ApiCall(p, op, r, newID));
    if z != y {
      ApplyKeeps(y.cfg, p, op, r, newID, s);
      ApplyFrame(y.cfg, p, op, r, newID, s);
      ControllerFrame(y.cfg, p, op, r, newID, s);
      CallIsSound(y.cfg, s, z.platform);
      CallIsBacked(y.cfg, s, z.platform, y.cloud, y.drifted);
      ShadowsItself(z.platform);
      NodesUntouched(y, z);
    }
  }

  lemma ActivatedIsSound(cfg: Config, id: string, on: bool, s: Platform)
    requires ConfigOk(cfg) && Sound(cfg, s)
    ensures ConfigOk(Activated(cfg, id, on)) && Sound(Activated(cfg, id, on), s)
  {
    forall x | x in s.attachments ensures AttachmentOk(Activated(cfg, id, on), s, x, s.attachments[x]) {
      assert AttachmentOk(cfg, s, x, s.attachments[x]);
    }
  }

  lemma SetActiveKeeps(y: System, id: string, on: bool)
    requires Inv(y)
    ensures Inv(Step(y, SetActive(id, on)))
  {
    hide Sound, Activated, Backed, Shadows;
    var z := Step(y, SetActive(id, on));
    ActivatedIsSound(y.cfg, id, on, y.platform);
    NodesElsewhere(y, z);
  }

  lemma NodesElsewhere(y: System, z: System)
    requires NodesFit(y) && z.nodes == y.nodes && z.signatures == y.signatures && z.platform == y.platform
    ensures NodesFit(z)
  {
    forall i | i in z.nodes ensures NodeFits(z, i, z.nodes[i]) {
      assert NodeFits(y, i, y.nodes[i]);
    }
  }

  // ----- reconcile -----

  lemma OpenKeeps(y: System)
    requires Inv(y)
    ensures Inv(Step(y, Open))
  {
    hide Sound, Backed, Shadows;
    var z := Step(y, Open);
    ShadowsItself(y.platform);
    NodesElsewhere(y, z);
  }

  lemma VolumeTurnKeeps(y: System, k: string, f: Faults)
    requires Inv(y)
    ensures Inv(Step(y, VolumeTurn(k, f)))
  {
    hide Sound, Backed, Shadows, StepVolume, ConfigOk;
    var z := Step(y, VolumeTurn(k, f));
    NodesElsewhere(y, z);
    if z != y {
      VolumeStepKeeps(y.cfg, View(Current(y), y.cloud), k, f, y.drifted);
      ShadowsTransitively(y.platform, Current(y), Current(z));
    }
  }

  lemma AttachmentTurnKeeps(y: System, x: string, f: Faults)
    requires Inv(y)
    ensures Inv(Step(y, AttachmentTurn(x, f)))
  {
    hide Sound, Backed, Shadows, StepAttachment, ConfigOk;
    var z := Step(y, AttachmentTurn(x, f));
    NodesElsewhere(y, z);
    if z != y {
      AttachmentStepKeeps(y.cfg, View(Current(y), y.cloud), x, f, y.drifted);
      ShadowsTransitively(y.platform, Current(y), Current(z));
    }
  }

  lemma ShadowFrame(s: Platform, t: Platform)
    requires Shadows(s, t)
    ensures NodeFrameOk(s, t)
  {
  }

  lemma CommitKeeps(y: System)
    requires Inv(y)
    ensures Inv(Step(y, Commit))
  {
    hide Sound, Backed, Shadows, ConfigOk, NodesFit, NodeFrameOk;
    var z := Step(y, Commit);
    if z != y {
      ShadowFrame(y.platform, z.platform);
      ShadowsItself(z.platform);
      NodesUntouched(y, z);
    }
  }

  lemma AbortKeeps(y: System)
    requires Inv(y)
    ensures Inv(Step(y, Abort))
  {
    hide Sound, Backed, Shadows, ConfigOk;
    ShadowsItself(y.platform);
    DroppedIsBacked(y.platform, Current(y), y.cloud, y.drifted);
    NodesElsewhere(y, Step(y, Abort));
  }

  // ----- out of band -----

  lemma DriftIsBacked(s: Platform, c: Cloud, k: string, disk: Option<Disk>, drifted: set<string>)
    requires Backed(s, c, drifted)
    requires disk == None || (k in c && disk == Some(c[k].(instance := "", attachment := "")))
    ensures Backed(s, Put(c, k, disk), drifted + {k})
  {
    hide Intact;
    forall j ensures Backs(s, j, Look(Put(c, k, disk), j), drifted + {k}) {
      assert Backs(s, j, Look(c, j), drifted);
    }
  }

  lemma DriftKeeps(y: System, e: Event)
    requires Inv(y) && (e.DetachDrift? || e.DeleteDrift?)
    ensures Inv(Step(y, e))
  {
    hide Sound, Backed, Shadows, ConfigOk;
    var k := e.volume;
    NodesElsewhere(y, Step(y, e));
    if e.DeleteDrift? {
      DriftIsBacked(Current(y), y.cloud, k, None, y.drifted);
    } else if k in y.cloud {
      DriftIsBacked(Current(y), y.cloud, k, Some(y.cloud[k].(instance := "", attachment := "")), y.drifted);
    }
  }

  lemma RewriteKeeps(y: System, k: string, found: seq<string>)
    requires Inv(y)
    ensures Inv(Step(y, Rewrite(k, found)))
  {
    hide CoreOk, NodeOk, GrantOk;
    var z := Step(y, Rewrite(k, found));
    forall i | i in z.nodes ensures NodeFits(z, i, z.nodes[i]) {
      assert NodeFits(y, i, y.nodes[i]);
    }
    assert CoreOk(z) by { SameCore(y, z); }
  }

  lemma SameCore(y: System, z: System)
    requires CoreOk(y) && z.cfg == y.cfg && z.platform == y.platform && z.txn == y.txn
    requires z.cloud == y.cloud && z.drifted == y.drifted
    ensures CoreOk(z)
  {
  }

  // ----- one node moves -----

  lemma OneNodeMoves(y: System, z: System, i: string)
    requires Inv(y) && i in y.nodes && i in z.nodes
    requires z == WithNode(y, i, z.nodes[i]) && NodeFits(z, i, z.nodes[i])
    ensures Inv(z)
  {
    hide NodeOk, GrantOk;
    assert CoreOk(z) by { SameCore(y, z); }
    forall j | j in z.nodes ensures NodeFits(z, j, z.nodes[j]) {
      assert j != i ==> NodeFits(y, j, y.nodes[j]);
    }
  }

  lemma StoppedKeeps(y: System, i: string, code: Code)
    requires Inv(y) && i in y.nodes
    ensures Inv(WithNode(y, i, Stop(y.nodes[i], code)))
  {
    hide CoreOk, NodeOk;
    assert NodeFits(y, i, y.nodes[i]);
    StopKeeps(i, y.platform, y.nodes[i], code);
    OneNodeMoves(y, WithNode(y, i, Stop(y.nodes[i], code)), i);
  }

  lemma StartsKeeps(y: System, i: string, c: Rpc)
    requires Inv(y) && i in y.nodes
    ensures Inv(Step(y, NodeStarts(i, c)))
  {
    hide CoreOk, NodeOk;
    var n := y.nodes[i];
    assert NodeFits(y, i, n);
    BeginKeeps(i, y.platform, n, c);
    BeginGrantsNothing(n, c);
    if n.pc.Idle? { OneNodeMoves(y, WithNode(y, i, Begin(n, c)), i); }
  }

  lemma BeginGrantsNothing(n: Node, c: Rpc)
    ensures Grant(Begin(n, c)).None? && !Begin(n, c).pc.Formatting?
  {
  }

  lemma SavesKeeps(y: System, i: string, f: Fault)
    requires Inv(y) && i in y.nodes
    ensures Inv(Step(y, NodeSaves(i, f)))
  {
    hide CoreOk, NodeOk, GrantOk, Saved;
    var n := y.nodes[i];
    assert NodeFits(y, i, n);
    SaveKeeps(i, y.platform, n, f);
    SavedGrantsSame(y.platform, n, f);
    OneNodeMoves(y, WithNode(y, i, Saved(n, f)), i);
  }

  lemma SavedGrantsSame(s: Platform, n: Node, f: Fault)
    requires GrantOk(s, n)
    ensures GrantOk(s, Saved(n, f)) && (Saved(n, f).pc.Formatting? ==> Saved(n, f) == n)
  {
  }

  lemma HostStepGrants(s: Platform, n: Node, f: Fault)
    requires GrantOk(s, n)
    ensures GrantOk(s, HostStep(n, f)) && (HostStep(n, f).pc.Formatting? ==> HostStep(n, f) == n)
  {
    hide Staged, Published, Expanded, Unmounted;
  }

  lemma ProbedKeeps(y: System, i: string, k: string, f: Fault)
    requires Inv(y) && i in y.nodes && y.nodes[i].pc == Mounting(k) && k in y.nodes[i].journal
    ensures Inv(Probed(y, i, k, f))
  {
    hide CoreOk, JournalOk, AllApart, MountsOk, Keeps;
    var n, z := y.nodes[i], Probed(y, i, k, f);
    assert NodeFits(y, i, n);
    StoppedKeeps(y, i, Unavailable);
    if !z.nodes[i].pc.Idle? { OneNodeMoves(y, z, i); }
  }

  /** Only this node is about to format the volume, so nobody else is surprised by the new signature. */
  lemma FormattedKeeps(y: System, i: string, k: string, f: Fault)
    requires Inv(y) && i in y.nodes && y.nodes[i].pc == Formatting(k) && k in y.nodes[i].journal
    ensures Inv(Formatted(y, i, k, f))
  {
    hide CoreOk, JournalOk, AllApart, MountsOk, Keeps, GrantOk;
    var n, z := y.nodes[i], Formatted(y, i, k, f);
    assert NodeFits(y, i, n);
    StoppedKeeps(y, i, Unavailable);
    if !f.Before? {
      forall j | j in z.nodes ensures NodeFits(z, j, z.nodes[j]) {
        assert NodeFits(y, j, y.nodes[j]);
        if j != i && y.nodes[j].pc == Formatting(k) { OneEngagedNow(y, i, j, k); }
        if j == i { FormatterFits(y, i, k, f); }
      }
      SameCore(y, z);
    }
  }

  lemma FormatterFits(y: System, i: string, k: string, f: Fault)
    requires Inv(y) && i in y.nodes && y.nodes[i].pc == Formatting(k) && k in y.nodes[i].journal && !f.Before?
    ensures NodeFits(Formatted(y, i, k, f), i, Formatted(y, i, k, f).nodes[i])
  {
    hide CoreOk, JournalOk, AllApart, MountsOk, Keeps;
    assert NodeFits(y, i, y.nodes[i]);
  }

  lemma OneEngagedNow(y: System, i: string, j: string, k: string)
    requires Inv(y) && i in y.nodes && j in y.nodes && Engaged(y.nodes[i], k) && Engaged(y.nodes[j], k)
    ensures i == j
  {
    hide NodeOk, PlatformOk, Backed, Shadows;
    assert NodeFits(y, i, y.nodes[i]) && NodeFits(y, j, y.nodes[j]);
    OneEngaged(y.cfg, y.platform, i, y.nodes[i], j, y.nodes[j], k);
  }

  lemma HostsKeeps(y: System, i: string, f: Fault)
    requires Inv(y) && i in y.nodes
    ensures Inv(Step(y, NodeHosts(i, f)))
  {
    hide CoreOk, NodeOk, GrantOk, Probed, Formatted, HostStep;
    var n := y.nodes[i];
    assert NodeFits(y, i, n);
    if n.pc.Mounting? && n.pc.volume in n.journal { ProbedKeeps(y, i, n.pc.volume, f); }
    if n.pc.Formatting? && n.pc.volume in n.journal {
      FormattedKeeps(y, i, n.pc.volume, f);
    } else {
      HostKeeps(i, y.platform, n, f);
      HostStepGrants(y.platform, n, f);
      OneNodeMoves(y, WithNode(y, i, HostStep(n, f)), i);
    }
  }

  // ----- a node's own call -----

  lemma AnsweredGrant(cfg: Config, i: string, s: Platform, n: Node)
    requires ConfigOk(cfg) && PlatformOk(cfg, s) && Pending(n).Some?
    ensures var ap := NodeApply(cfg, i, Pending(n).value, s);
            GrantOk(ap.state, Answered(n, ap.reply)) && !Answered(n, ap.reply).pc.Formatting?
  {
    hide NodeApply, PlatformOk, ConfigOk;
    var q := Pending(n).value;
    var ap := NodeApply(cfg, i, q, s);
    if n.pc.Acquiring? && ap.reply.Done? { AcceptedIsLive(cfg, i, q, s); }
  }

  /** A node's call withdraws the leave to format only from the volume it marks as initialized. */
  lemma CallWithdraws(cfg: Config, i: string, q: (Op, Request), s: Platform, k: string)
    requires k in s.volumes
    ensures var t := NodeApply(cfg, i, q, s).state;
            k in t.volumes && (t.volumes[k].allowFormat == s.volumes[k].allowFormat
                || (q.0 == MarkInitialized && q.1.volume == k))
  {
  }

  lemma BystanderGrant(y: System, i: string, j: string)
    requires Inv(y) && i in y.nodes && j in y.nodes && j != i && Pending(y.nodes[i]).Some?
    ensures GrantOk(NodeApply(y.cfg, i, Pending(y.nodes[i]).value, y.platform).state, y.nodes[j])
  {
    hide CoreOk, JournalOk, AllApart, MountsOk, NodeApply;
    var m, n := y.nodes[j], y.nodes[i];
    var q := Pending(n).value;
    assert NodeFits(y, j, m) && NodeFits(y, i, n);
    if Grant(m).Some? && Grant(m).value.allowFormat {
      CallWithdraws(y.cfg, i, q, y.platform, m.pc.volume);
      if q.0 == MarkInitialized && q.1.volume == m.pc.volume {
        AskedOfEntry(y.cfg, i, y.platform, n);
        OneEngagedNow(y, i, j, m.pc.volume);
      }
    }
  }

  lemma CalledIsCore(y: System, i: string, q: (Op, Request), z: System)
    requires CoreOk(y) && y.txn.None?
    requires z == y.(platform := z.platform, nodes := z.nodes) && z.platform == NodeApply(y.cfg, i, q, y.platform).state
    ensures CoreOk(z)
  {
    hide PlatformOk, CallFrame, NodeCall, Evolves, Backed, Shadows;
    var s := y.platform;
    CallAdvances(y.cfg, i, q, s);
    NodeCallFrame(y.cfg, IdentityOf(y.cfg, i), q.0, q.1, s);
    CallIsSound(y.cfg, s, z.platform);
    CallIsBacked(y.cfg, s, z.platform, y.cloud, y.drifted);
    ShadowsItself(z.platform);
  }

  lemma CalledFits(y: System, i: string, f: Fault, j: string)
    requires Inv(y) && i in y.nodes && j in y.nodes && y.txn.None? && !f.Before? && Pending(y.nodes[i]).Some?
    ensures NodeFits(Called(y, i, f), j, Called(y, i, f).nodes[j])
  {
    hide PlatformOk, NodeApply, NodeOk, GrantOk, Answered, Backed, Shadows, SizesOk, DevicesOk;
    var q, s := Pending(y.nodes[i]).value, y.platform;
    assert NodeFits(y, j, y.nodes[j]) && NodeFits(y, i, y.nodes[i]);
    if j == i {
      AnswerKeeps(y.cfg, i, s, y.nodes[i]);
      AnsweredGrant(y.cfg, i, s, y.nodes[i]);
      StoppedGrantsNothing(Called(y, i, f).platform, y.nodes[i]);
    } else {
      BystanderKeeps(y.cfg, i, q, s, j, y.nodes[j]);
      BystanderGrant(y, i, j);
    }
  }

  lemma StoppedGrantsNothing(s: Platform, n: Node)
    ensures GrantOk(s, Stop(n, Unavailable))
  {
  }

  lemma CallsKeeps(y: System, i: string, f: Fault)
    requires Inv(y) && i in y.nodes
    ensures Inv(Step(y, NodeCalls(i, f)))
  {
    hide CoreOk, NodeFits, NodeApply, Answered;
    StoppedKeeps(y, i, Unavailable);
    assert WithNode(y, i, y.nodes[i]) == y;
    if Pending(y.nodes[i]).Some? && y.txn.None? && !f.Before? {
      var z := Called(y, i, f);
      assert z.txn == y.txn && z.cloud == y.cloud;
      CalledIsCore(y, i, Pending(y.nodes[i]).value, z);
      forall j | j in z.nodes ensures NodeFits(z, j, z.nodes[j]) {
        CalledFits(y, i, f, j);
      }
    }
  }

  // ----- every step, every run -----

  lemma InitHolds(y: System)
    requires Init(y)
    ensures Inv(y)
  {
    forall i | i in y.nodes ensures NodeFits(y, i, y.nodes[i]) {
    }
  }

  lemma StepKeeps(y: System, e: Event)
    requires Inv(y)
    ensures Inv(Step(y, e))
  {
    hide Inv, Step;
    match e {
      case ApiCall(p, op, r, newID) => ApiCallKeeps(y, p, op, r, newID);
      case SetActive(id, on) => SetActiveKeeps(y, id, on);
      case Open => OpenKeeps(y);
      case VolumeTurn(k, f) => VolumeTurnKeeps(y, k, f);
      case AttachmentTurn(x, f) => AttachmentTurnKeeps(y, x, f);
      case Commit => CommitKeeps(y);
      case Abort => AbortKeeps(y);
      case DetachDrift(k) => DriftKeeps(y, e);
      case DeleteDrift(k) => DriftKeeps(y, e);
      case Rewrite(k, found) => RewriteKeeps(y, k, found);
      case _ => NodeStepKeeps(y, e);
    }
  }

  lemma NodeStepKeeps(y: System, e: Event)
    requires Inv(y) && (e.NodeStarts? || e.NodeCalls? || e.NodeSaves? || e.NodeHosts? || e.NodeCrashes?)
    ensures Inv(Step(y, e))
  {
    hide Inv;
    if e.node in y.nodes {
      match e {
        case NodeStarts(i, c) => StartsKeeps(y, i, c);
        case NodeCalls(i, f) => CallsKeeps(y, i, f);
        case NodeSaves(i, f) => SavesKeeps(y, i, f);
        case NodeHosts(i, f) => HostsKeeps(y, i, f);
        case NodeCrashes(i) => StoppedKeeps(y, i, Unavailable);
        case _ =>
      }
    }
  }

  /** The invariant holds after any run from any initial state. */
  lemma {:induction false} RunKeeps(y: System, es: seq<Event>)
    requires Inv(y)
    ensures Inv(Run(y, es))
    decreases |es|
  {
    hide Inv, Step;
    if es != [] {
      StepKeeps(y, es[0]);
      RunKeeps(Step(y, es[0]), es[1..]);
    }
  }
}
