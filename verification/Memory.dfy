/** Does every use the platform counts have somebody who will give it back? The source can lose one, and this says
    exactly when: a use is forgotten by three kinds of event and by no other. */
module Memory {
  import opened Model
  import opened Calls
  import opened Invariants
  import opened Hosts
  import opened Nodes
  import opened NodeInvariant
  import opened NodeCalls
  import opened Backing
  import opened Systems
  import opened SystemInvariant
  import opened EndToEnd

  predicate UseOf(s: Platform, x: string, u: string) {
    x in s.attachments && u in s.attachments[x].uses
  }

  predicate Journalled(j: Journal, x: string, u: string) {
    exists k :: k in j && j[k].proof.attachment == x && j[k].proof.use == u
  }

  /** The node's journal has the use, or the record it is about to write does. */
  predicate Recalls(n: Node, x: string, u: string) {
    Journalled(n.journal, x, u)
    || (n.pc.Recording? && n.pc.stage.proof.attachment == x && n.pc.stage.proof.use == u)
  }

  ghost predicate RecalledBy(s: Platform, nodes: map<string, Node>, x: string, u: string)
    requires UseOf(s, x, u)
  {
    var i := s.attachments[x].link.instance;
    i in nodes && Recalls(nodes[i], x, u)
  }

  /** Every use is remembered by the node it belongs to. */
  ghost predicate Remembered(y: System) {
    forall x, u :: UseOf(y.platform, x, u) ==> RecalledBy(y.platform, y.nodes, x, u)
  }

  // ----- the events that forget -----

  /** An accepted acquire whose answer is lost; a failed save, or a crash, between the answer and the journal. In each
      case the node had no record of the volume before. */
  ghost predicate Forgets(y: System, e: Event) {
    match e
    case NodeCalls(i, f) =>
      && f.After? && y.txn.None? && i in y.nodes && y.nodes[i].pc.Acquiring?
      && y.nodes[i].pc.proof.volume !in y.nodes[i].journal
      && NodeApply(y.cfg, i, (AcquireUse, y.nodes[i].pc.proof), y.platform).reply.Done?
    case NodeSaves(i, f) => f.Before? && RecordsFirst(y, i)
    case NodeCrashes(i) => RecordsFirst(y, i)
    case _ => false
  }

  predicate RecordsFirst(y: System, i: string) {
    i in y.nodes && y.nodes[i].pc.Recording? && y.nodes[i].pc.volume !in y.nodes[i].journal
  }

  // ----- they do forget -----

  /** A journal without an entry for the volume has no proof of any of its attachments. */
  lemma NotJournalled(i: string, s: Platform, n: Node, p: Request)
    requires NodeOk(i, s, n) && Bound(s, i, p) && p.volume !in n.journal
    ensures !Journalled(n.journal, p.attachment, p.use)
  {
    forall k | k in n.journal ensures n.journal[k].proof.attachment != p.attachment {
      assert EntryOk(n.hash, i, s, k, n.journal[k]);
    }
  }

  lemma Stray(y: System, i: string, p: Request)
    requires Bound(y.platform, i, p) && Held(y.platform, p)
    requires i in y.nodes && y.nodes[i].pc.Idle? && !Journalled(y.nodes[i].journal, p.attachment, p.use)
    ensures !Remembered(y)
  {
    assert UseOf(y.platform, p.attachment, p.use);
  }

  lemma LostRecordForgets(y: System, e: Event)
    requires Inv(y) && Forgets(y, e) && !e.NodeCalls?
    ensures !Remembered(Step(y, e))
  {
    hide PlatformOk, AllApart, MountsOk, Backed, Shadows, JournalOk;
    var n := y.nodes[e.node];
    assert NodeFits(y, e.node, n);
    NotJournalled(e.node, y.platform, n, n.pc.stage.proof);
    Stray(Step(y, e), e.node, n.pc.stage.proof);
  }

  lemma LostAnswerForgets(y: System, e: Event)
    requires Inv(y) && Forgets(y, e) && e.NodeCalls?
    ensures !Remembered(Step(y, e))
  {
    hide PlatformOk, NodeOk, Backed, Shadows, NodeApply, Answered, DevicesOk, SizesOk, Journalled;
    var i, n := e.node, y.nodes[e.node];
    var q := (AcquireUse, n.pc.proof);
    assert NodeFits(y, i, n);
    AcceptedIsLive(y.cfg, i, q, y.platform);
    CallAdvances(y.cfg, i, q, y.platform);
    NotJournalled(i, y.platform, n, q.1);
    BoundStill(y.platform, NodeApply(y.cfg, i, q, y.platform).state, i, q.1);
    Stray(Step(y, e), i, q.1);
  }

  /** The proof of the use that such an event forgets. */
  function Forgotten(n: Node): Request {
    match n.pc
    case Acquiring(p, _) => p
    case Recording(_, e) => e.proof
    case _ => BLANK
  }

  lemma ForgottenFacts(y: System, e: Event)
    requires Inv(y) && Forgets(y, e)
    ensures var i, z := e.node, Step(y, e);
            var p := Forgotten(y.nodes[i]);
            && p.volume != "" && i in z.nodes && z.nodes[i].pc.Idle? && p.volume !in z.nodes[i].journal
            && Held(z.platform, p)
  {
    hide PlatformOk, JournalOk, AllApart, MountsOk, Backed, Shadows, NodeApply, Answered, DevicesOk, SizesOk, PathFree;
    var i, n := e.node, y.nodes[e.node];
    assert NodeFits(y, i, n);
    if e.NodeCalls? { AcceptedIsLive(y.cfg, i, (AcquireUse, n.pc.proof), y.platform); }
  }

  /** What is forgotten stays counted, and unstaging does not help: it answers OK and gives nothing back. It errs on
      the safe side: the use can only keep the disk attached. */
  lemma UnstagingDoesNotHelp(y: System, e: Event, path: string)
    requires Inv(y) && Forgets(y, e)
    ensures var i, z, p := e.node, Step(y, e), Forgotten(y.nodes[e.node]);
            && Held(z.platform, p)
            && var u := Step(z, NodeStarts(i, UnstageVolume(p.volume, path, true)));
               i in u.nodes && u.nodes[i].pc == Idle(OK) && Held(u.platform, p)
  {
    hide Inv, Forgets, Held;
    ForgottenFacts(y, e);
    IdleUnstages(Step(y, e), e.node, Forgotten(y.nodes[e.node]).volume, path);
  }

  lemma IdleUnstages(z: System, i: string, k: string, path: string)
    requires i in z.nodes && z.nodes[i].pc.Idle? && k != "" && k !in z.nodes[i].journal
    ensures var u := Step(z, NodeStarts(i, UnstageVolume(k, path, true)));
            i in u.nodes && u.nodes[i].pc == Idle(OK) && u.platform == z.platform
  {
  }

  // ----- the others do not -----

  /** No use appears, and no attachment changes hands. */
  ghost predicate NoUseAppears(s: Platform, t: Platform) {
    forall x, u :: UseOf(t, x, u) ==> UseOf(s, x, u) && t.attachments[x].link == s.attachments[x].link
  }

  /** What the node could recall it still can, of the uses that are still there. */
  ghost predicate StillRecalls(i: string, s: Platform, m: Node, n: Node) {
    forall x, u :: UseOf(s, x, u) && s.attachments[x].link.instance == i && Recalls(m, x, u) ==> Recalls(n, x, u)
  }

  lemma NobodyForgets(y: System, z: System)
    requires Remembered(y) && NoUseAppears(y.platform, z.platform) && y.nodes.Keys <= z.nodes.Keys
    requires forall i :: i in y.nodes ==> StillRecalls(i, z.platform, y.nodes[i], z.nodes[i])
    ensures Remembered(z)
  {
    forall x, u | UseOf(z.platform, x, u) ensures RecalledBy(z.platform, z.nodes, x, u) {
      assert RecalledBy(y.platform, y.nodes, x, u);
    }
  }

  lemma SameUses(s: Platform)
    ensures NoUseAppears(s, s)
  {
  }

  lemma SameMemory(i: string, s: Platform, n: Node)
    ensures StillRecalls(i, s, n, n)
  {
  }

  lemma NodesKeepMemory(y: System, z: System, i: string)
    requires Remembered(y) && i in y.nodes && i in z.nodes && z.nodes == y.nodes[i := z.nodes[i]]
    requires NoUseAppears(y.platform, z.platform) && StillRecalls(i, z.platform, y.nodes[i], z.nodes[i])
    ensures Remembered(z)
  {
    hide StillRecalls, NoUseAppears;
    forall j | j in y.nodes ensures StillRecalls(j, z.platform, y.nodes[j], z.nodes[j]) {
      if j != i { SameMemory(j, z.platform, y.nodes[j]); }
    }
    NobodyForgets(y, z);
  }

  lemma ControllerAddsNoUse(y: System, p: Principal, op: Op, r: Request, newID: string)
    requires Inv(y) && p.role != "node" && Fresh(y.platform, newID)
    ensures NoUseAppears(y.platform, Apply(y.cfg, p, op, r, newID, y.platform).state)
  {
    hide PlatformOk, Apply, NodesFit, Backed, Shadows, Fresh;
    var s, t := y.platform, Apply(y.cfg, p, op, r, newID, y.platform).state;
    ApplyKeeps(y.cfg, p, op, r, newID, s);
    ApplyFrame(y.cfg, p, op, r, newID, s);
    ControllerFrame(y.cfg, p, op, r, newID, s);
    forall x, u | UseOf(t, x, u) ensures UseOf(s, x, u) && t.attachments[x].link == s.attachments[x].link {
      if x !in s.attachments { NewbornClaimsNothing(y.cfg, t, x); }
    }
  }

  lemma PlatformForgetsNothing(y: System, e: Event)
    requires Inv(y) && Remembered(y)
    requires !e.NodeStarts? && !e.NodeCalls? && !e.NodeSaves? && !e.NodeHosts? && !e.NodeCrashes?
    ensures Remembered(Step(y, e))
  {
    hide PlatformOk, Apply, NodesFit, Backed, Remembered, NoUseAppears, StillRecalls, VolumeTurned, AttachmentTurned,
        Fresh;
    var z := Step(y, e);
    SameUses(y.platform);
    match e {
      case ApiCall(p, op, r, newID) =>
        if z != y { ControllerAddsNoUse(y, p, op, r, newID); }
      case Commit => ShadowsAddNoUse(y.platform, Current(y));
      case _ =>
    }
    forall i | i in y.nodes ensures StillRecalls(i, z.platform, y.nodes[i], z.nodes[i]) {
      SameMemory(i, z.platform, y.nodes[i]);
    }
    NobodyForgets(y, z);
  }

  lemma ShadowsAddNoUse(s: Platform, t: Platform)
    requires Shadows(s, t)
    ensures NoUseAppears(s, t)
  {
  }

  /** A record over an old one carries the same proof, so losing it loses nothing. */
  lemma SameProofAgain(i: string, s: Platform, n: Node)
    requires NodeOk(i, s, n) && n.pc.Recording? && n.pc.volume in n.journal
    ensures Journalled(n.journal, n.pc.stage.proof.attachment, n.pc.stage.proof.use)
  {
  }

  lemma StoppingKeepsMemory(i: string, s: Platform, n: Node, code: Code)
    requires NodeOk(i, s, n) && (n.pc.Recording? ==> n.pc.volume in n.journal)
    ensures StillRecalls(i, s, n, Stop(n, code))
  {
    hide NodeOk;
    if n.pc.Recording? { SameProofAgain(i, s, n); }
  }

  /** A save drops an entry only when its use is gone. */
  lemma SavingKeepsMemory(i: string, s: Platform, n: Node, f: Fault)
    requires NodeOk(i, s, n) && !(f.Before? && n.pc.Recording? && n.pc.volume !in n.journal)
    ensures StillRecalls(i, s, n, Saved(n, f))
  {
    if Saves(n.pc) && !f.Before? {
      var j, d, k := n.journal, Draft(n), n.pc.volume;
      DraftProofs(i, s, n);
      forall x, u | UseOf(s, x, u) && s.attachments[x].link.instance == i && Recalls(n, x, u)
        ensures Journalled(d, x, u)
      {
        if n.pc.Recording? && n.pc.stage.proof.attachment == x && n.pc.stage.proof.use == u {
          assert d[k].proof == n.pc.stage.proof;
        } else {
          var l :| l in j && j[l].proof.attachment == x && j[l].proof.use == u;
          assert l in d && d[l].proof == j[l].proof;
        }
      }
    } else {
      hide Draft, AfterSave, JournalOk, AllApart, MountsOk;
      StoppingKeepsMemory(i, s, n, Unavailable);
      SameMemory(i, s, n);
    }
  }

  lemma DraftProofs(i: string, s: Platform, n: Node)
    requires NodeOk(i, s, n) && Saves(n.pc)
    ensures forall l :: l in n.journal && Held(s, n.journal[l].proof)
               ==> l in Draft(n) && Draft(n)[l].proof == n.journal[l].proof
    ensures n.pc.Recording? ==> n.pc.volume in Draft(n) && Draft(n)[n.pc.volume].proof == n.pc.stage.proof
  {
    hide JournalOk, AllApart, MountsOk, EntryOk, PathFree, SizedAs;
  }

  lemma QuietNodeStepKeepsMemory(y: System, e: Event)
    requires Inv(y) && Remembered(y) && !Forgets(y, e)
        && (e.NodeStarts? || e.NodeSaves? || e.NodeHosts? || e.NodeCrashes?)
    ensures Remembered(Step(y, e))
  {
    hide CoreOk, NodeOk, Remembered, StillRecalls, NoUseAppears, HostTurned, Begin, Saved;
    if e.node in y.nodes {
      var i, n := e.node, y.nodes[e.node];
      var z := Step(y, e);
      assert NodeFits(y, i, n);
      SameUses(y.platform);
      SameMemory(i, y.platform, n);
      match e {
        case NodeStarts(_, c) => if n.pc.Idle? { StartingKeepsMemory(i, y.platform, n, c); }
        case NodeSaves(_, f) => SavingKeepsMemory(i, y.platform, n, f);
        case NodeHosts(_, f) => HostingKeepsMemory(y, i, f);
        case NodeCrashes(_) => StoppingKeepsMemory(i, y.platform, n, Unavailable);
        case _ =>
      }
      NodesKeepMemory(y, z, i);
    }
  }

  lemma StartingKeepsMemory(i: string, s: Platform, n: Node, c: Rpc)
    requires n.pc.Idle?
    ensures StillRecalls(i, s, n, Begin(n, c))
  {
    hide Begin;
    assert Begin(n, c).journal == n.journal;
  }

  lemma HostingKeepsMemory(y: System, i: string, f: Fault)
    requires i in y.nodes
    ensures StillRecalls(i, y.platform, y.nodes[i], HostTurned(y, i, f).nodes[i])
  {
    HostKeepsJournal(y, i, f);
  }

  lemma HostKeepsJournal(y: System, i: string, f: Fault)
    requires i in y.nodes
    ensures var n, m := y.nodes[i], HostTurned(y, i, f).nodes[i]; m.journal == n.journal && (n.pc.Recording? ==> m == n)
  {
    hide Staged, Published, Expanded, Reached;
  }

  // ----- a node's own call -----

  lemma OtherCallsAddNoUse(cfg: Config, i: string, q: (Op, Request), s: Platform)
    requires q.0 != AcquireUse || NodeApply(cfg, i, q, s).reply.Rejected?
    ensures NoUseAppears(s, NodeApply(cfg, i, q, s).state)
  {
    hide ProofMatches, ValidID;
  }

  lemma AcquireAddsOne(cfg: Config, i: string, p: Request, s: Platform, x: string, u: string)
    requires NodeApply(cfg, i, (AcquireUse, p), s).reply.Done?
        && UseOf(NodeApply(cfg, i, (AcquireUse, p), s).state, x, u)
    ensures UseOf(s, x, u) || (x == p.attachment && u == p.use)
    ensures x in s.attachments
        && NodeApply(cfg, i, (AcquireUse, p), s).state.attachments[x].link == s.attachments[x].link
  {
    hide ValidID;
  }

  /** The node that has just acquired a use recalls it, from the answer or from an old record. */
  lemma AcquirerRecalls(y: System, i: string, f: Fault)
    requires Inv(y) && i in y.nodes && y.nodes[i].pc.Acquiring? && y.txn.None? && !f.Before?
    requires NodeApply(y.cfg, i, (AcquireUse, y.nodes[i].pc.proof), y.platform).reply.Done?
    requires !Forgets(y, NodeCalls(i, f))
    ensures var p := y.nodes[i].pc.proof; Recalls(Called(y, i, f).nodes[i], p.attachment, p.use)
  {
    hide PlatformOk, NodeApply, AllApart, MountsOk, DevicesOk, SizesOk, Backed, Shadows, PathFree;
    var n, p := y.nodes[i], y.nodes[i].pc.proof;
    assert NodeFits(y, i, n);
    AcceptedIsLive(y.cfg, i, (AcquireUse, p), y.platform);
    CallAdvances(y.cfg, i, (AcquireUse, p), y.platform);
    if p.volume in n.journal {
      assert EntryOk(n.hash, i, y.platform, p.volume, n.journal[p.volume]);
      assert n.journal[p.volume].proof.attachment == p.attachment && n.journal[p.volume].proof.use == p.use;
    }
  }

  lemma AcquireKeepsMemory(y: System, i: string, f: Fault)
    requires Inv(y) && Remembered(y) && i in y.nodes && y.nodes[i].pc.Acquiring? && y.txn.None? && !f.Before?
    requires NodeApply(y.cfg, i, (AcquireUse, y.nodes[i].pc.proof), y.platform).reply.Done?
    requires !Forgets(y, NodeCalls(i, f))
    ensures Remembered(Called(y, i, f))
  {
    hide PlatformOk, NodeApply, NodeOk, Backed, Shadows, Recalls, Answered, Forgets;
    var n, p, z := y.nodes[i], y.nodes[i].pc.proof, Called(y, i, f);
    AcquirerRecalls(y, i, f);
    AcceptedIsBound(y.cfg, i, (AcquireUse, p), y.platform);
    forall x, u | UseOf(z.platform, x, u) ensures RecalledBy(z.platform, z.nodes, x, u) {
      AcquireAddsOne(y.cfg, i, p, y.platform, x, u);
      if UseOf(y.platform, x, u) {
        assert RecalledBy(y.platform, y.nodes, x, u);
        StillJournalled(y, i, f, x, u);
      }
    }
  }

  lemma StillJournalled(y: System, i: string, f: Fault, x: string, u: string)
    requires i in y.nodes && (Recalls(y.nodes[i], x, u) ==> !y.nodes[i].pc.Recording?)
    ensures Recalls(y.nodes[i], x, u) ==> Recalls(Called(y, i, f).nodes[i], x, u)
  {
    hide NodeApply, Answered, Pending;
    assert Called(y, i, f).nodes[i].journal == y.nodes[i].journal;
  }

  lemma CallKeepsMemory(y: System, i: string, f: Fault)
    requires Inv(y) && Remembered(y) && i in y.nodes && !Forgets(y, NodeCalls(i, f))
    ensures Remembered(Called(y, i, f))
  {
    hide PlatformOk, NodeApply, NodeOk, Backed, Shadows, Recalls, Answered, Forgets, Remembered, NoUseAppears;
    var n, z := y.nodes[i], Called(y, i, f);
    if Pending(n).None? || (y.txn.Some? && !f.Before?) {
      assert z == y by { assert WithNode(y, i, n) == y; }
    } else {
      var q := Pending(n).value;
      if n.pc.Acquiring? && !f.Before? && NodeApply(y.cfg, i, q, y.platform).reply.Done? {
        AcquireKeepsMemory(y, i, f);
      } else {
        SameUses(y.platform);
        if n.pc.Acquiring? ==> NodeApply(y.cfg, i, q, y.platform).reply.Rejected? {
          OtherCallsAddNoUse(y.cfg, i, q, y.platform);
        }
        forall x, u ensures Recalls(n, x, u) ==> Recalls(z.nodes[i], x, u) { StillJournalled(y, i, f, x, u); }
        NodesKeepMemory(y, z, i);
      }
    }
  }

  // ----- exactly these, over one step and over all runs -----

  /** From any state in which every use is remembered, an event makes the system forget one if and only if it is one
      of the three. */
  lemma ForgottenIff(y: System, e: Event)
    requires Inv(y) && Remembered(y)
    ensures Remembered(Step(y, e)) <==> !Forgets(y, e)
  {
    hide Inv, Remembered, Forgets, Called;
    if Forgets(y, e) {
      OnlyNodesForget(y, e);
      if e.NodeCalls? { LostAnswerForgets(y, e); } else { LostRecordForgets(y, e); }
    } else {
      match e {
        case NodeCalls(i, f) => if i in y.nodes { CallKeepsMemory(y, i, f); }
        case NodeStarts(_, _) => QuietNodeStepKeepsMemory(y, e);
        case NodeSaves(_, _) => QuietNodeStepKeepsMemory(y, e);
        case NodeHosts(_, _) => QuietNodeStepKeepsMemory(y, e);
        case NodeCrashes(_) => QuietNodeStepKeepsMemory(y, e);
        case _ => PlatformForgetsNothing(y, e);
      }
    }
  }

  lemma OnlyNodesForget(y: System, e: Event)
    requires Forgets(y, e)
    ensures e.NodeCalls? || e.NodeSaves? || e.NodeCrashes?
  {
  }

  /** None of the three happens anywhere in the run. */
  ghost predicate ForgetsNothing(y: System, es: seq<Event>)
    decreases |es|
  {
    es == [] || (!Forgets(y, es[0]) && ForgetsNothing(Step(y, es[0]), es[1..]))
  }

  lemma {:induction false} RunRemembers(y: System, es: seq<Event>)
    requires Inv(y) && Remembered(y) && ForgetsNothing(y, es)
    ensures Remembered(Run(y, es))
    decreases |es|
  {
    hide Inv, Step, Remembered, Forgets;
    if es != [] {
      ForgottenIff(y, es[0]);
      StepKeeps(y, es[0]);
      RunRemembers(Step(y, es[0]), es[1..]);
    }
  }

  /** `x` attaches volume `k` to node `i`, and nothing uses it. */
  ghost predicate NoUseLeft(s: Platform, i: string, k: string) {
    forall x :: x in s.attachments && s.attachments[x].link.volume == k && s.attachments[x].link.instance == i
                ==> s.attachments[x].uses == {}
  }

  /** An idle node's use of a volume has an entry for that volume. */
  lemma UseIsJournalled(y: System, i: string, x: string, u: string)
    requires Inv(y) && Remembered(y) && i in y.nodes && y.nodes[i].pc.Idle?
    requires UseOf(y.platform, x, u) && y.platform.attachments[x].link.instance == i
    ensures y.platform.attachments[x].link.volume in y.nodes[i].journal
  {
    hide PlatformOk, AllApart, MountsOk, PcOk, Backed, Shadows;
    var n := y.nodes[i];
    assert NodeFits(y, i, n) && RecalledBy(y.platform, y.nodes, x, u);
    var l :| l in n.journal && n.journal[l].proof.attachment == x && n.journal[l].proof.use == u;
    assert EntryOk(n.hash, i, y.platform, l, n.journal[l]);
  }

  lemma UnjournalledIsUnused(y: System, i: string, k: string)
    requires Inv(y) && Remembered(y) && i in y.nodes && k !in y.nodes[i].journal && y.nodes[i].pc.Idle?
    ensures NoUseLeft(y.platform, i, k)
  {
    hide Inv, Remembered;
    var s := y.platform;
    forall x, u | UseOf(s, x, u) && s.attachments[x].link.instance == i
      ensures s.attachments[x].link.volume in y.nodes[i].journal
    {
      UseIsJournalled(y, i, x, u);
    }
    forall x | x in s.attachments && s.attachments[x].link.volume == k && s.attachments[x].link.instance == i
      ensures s.attachments[x].uses == {}
    {
      assert forall u :: u in s.attachments[x].uses ==> UseOf(s, x, u);
    }
  }

  /** The step in which the node's unstage of volume `k` answers OK, with or without work. */
  ghost predicate UnstageAnswersOk(y: System, e: Event, i: string, k: string) {
    && i in y.nodes && i in Step(y, e).nodes && Step(y, e).nodes[i].pc == Idle(OK)
    && (y.nodes[i].pc == Erasing(k)
        || (e.NodeStarts? && e.node == i && y.nodes[i].pc.Idle? && e.rpc.UnstageVolume? && e.rpc.volume == k))
  }

  lemma UnstagedIsUnjournalled(y: System, e: Event, i: string, k: string)
    requires Inv(y) && UnstageAnswersOk(y, e, i, k)
    ensures k !in Step(y, e).nodes[i].journal
  {
    hide Inv, HostStep, Probed, Formatted;
    if y.nodes[i].pc.Erasing? { OnlyTheseFinish(y, e, i); }
  }

  /** In any run in which none of the three events occurs, an unstage that answers OK leaves no use of the volume
      behind on that node: a detach is no longer held up by it. */
  lemma UnstageLeavesNoUse(y0: System, es: seq<Event>, e: Event, i: string, k: string)
    requires Init(y0) && ForgetsNothing(y0, es) && UnstageAnswersOk(Run(y0, es), e, i, k)
    ensures NoUseLeft(Step(Run(y0, es), e).platform, i, k)
  {
    hide Init, Inv, Step, Run, Remembered, Forgets, NoUseLeft;
    var y := Run(y0, es);
    InitHolds(y0);
    InitRemembers(y0);
    RunKeeps(y0, es);
    RunRemembers(y0, es);
    UnstagingForgetsNothing(y, e, i, k);
    ForgottenIff(y, e);
    StepKeeps(y, e);
    UnstagedIsUnjournalled(y, e, i, k);
    UnjournalledIsUnused(Step(y, e), i, k);
  }

  lemma InitRemembers(y: System)
    requires Init(y)
    ensures Remembered(y)
  {
  }

  lemma UnstagingForgetsNothing(y: System, e: Event, i: string, k: string)
    requires UnstageAnswersOk(y, e, i, k)
    ensures !Forgets(y, e)
  {
    if y.nodes[i].pc.Erasing? { OnlyTheseFinish(y, e, i); }
    hide Step, NodeApply;
  }
}
