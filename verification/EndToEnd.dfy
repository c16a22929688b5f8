/** What an OK reply guarantees, from the caller's side down to the cloud and the mounts, in every reachable state. */
module EndToEnd {
  import opened Model
  import opened Provider
  import opened Calls
  import opened Invariants
  import opened Reconciling
  import opened Passes
  import opened Nodes
  import opened NodeInvariant
  import opened NodeSteps
  import opened NodeCalls
  import opened Linux
  import opened Backing
  import opened Systems
  import opened SystemInvariant
  import opened Safety
  import opened Controllers

  // ----- the controller's replies -----

  /** ControllerUnpublishVolume says OK: in its scope (one node, or every node when none is named) the volume has no
      live attachment, its disk is not attached, and no mount of it is left. */
  lemma UnpublishedEndToEnd(y0: System, es: seq<Event>, p: Principal, volume: string, node: string, newID: string)
    requires Init(y0) && p.role == "controller"
    requires var y := Run(y0, es);
             UnpublishReply(Apply(y.cfg, p, DeleteAttachment, BLANK.(volume := volume, instance := node), newID,
                 y.platform).reply).Answer?
    ensures var y := Run(y0, es);
            && NoneLive(y.platform, volume, node)
            && (forall j :: CloudAttachedTo(y, volume, j) ==> node != "" && j != node)
            && (forall j :: j in y.nodes && MountsVolume(y.nodes[j].mounts, volume) ==> node != "" && j != node)
  {
    hide Init, Run, PlatformOk, NodeOk, Apply, Shadows;
    var y := Run(y0, es);
    InitHolds(y0);
    RunKeeps(y0, es);
    UnpublishedMeansGone(y.cfg, p, volume, node, newID, y.platform);
    DroppedIsBacked(y.platform, Current(y), y.cloud, y.drifted);
    forall j | CloudAttachedTo(y, volume, j) ensures node != "" && j != node {
      assert Backs(y.platform, volume, Look(y.cloud, volume), y.drifted);
    }
    forall j | j in y.nodes && MountsVolume(y.nodes[j].mounts, volume) ensures node != "" && j != node {
      assert NodeFits(y, j, y.nodes[j]);
      EngagedIsSecured(y.cfg, j, y.platform, y.nodes[j], volume);
      var x :| Secures(y.platform, j, volume, x);
    }
  }

  /** ControllerPublishVolume says OK: the attachment is live on the node and, unless tampered with, the cloud disk is
      attached by it. */
  lemma PublishedEndToEnd(y: System, p: Principal, volume: string, node: string, newID: string)
    requires Inv(y) && p.role == "controller"
    requires PublishReply(Apply(y.cfg, p, CreateAttachment, BLANK.(volume := volume, instance := node), newID,
        y.platform).reply).Answer?
    ensures var a := Apply(y.cfg, p, CreateAttachment, BLANK.(volume := volume, instance := node), newID,
        y.platform).reply.attachment.value;
            && IsLiveOn(y.platform, volume, a.id) && a.link.instance == node && InZoneOf(y, node, volume)
            && (volume !in y.drifted ==> AttachedBy(Look(y.cloud, volume), a))
  {
    hide PlatformOk, NodesFit, Shadows, CreateAttachmentCall;
    var r := BLANK.(volume := volume, instance := node);
    NewlyAttachedIsPending(y.cfg, p, r, newID, y.platform);
    var a := CreateAttachmentCall(y.cfg, p, r, newID, y.platform).reply.attachment.value;
    DroppedIsBacked(y.platform, Current(y), y.cloud, y.drifted);
    assert Backs(y.platform, volume, Look(y.cloud, volume), y.drifted);
    assert volume !in y.drifted ==> ClaimMet(y.platform, a.id, Look(y.cloud, volume));
    AttachedInZoneNow(y, a.id);
    assert y.cfg.instances[node].id == node;
  }

  /** DeleteVolume says OK: the disk is gone, nothing mounts the volume, and whatever happens next the disk does not
      come back. */
  lemma DeletedEndToEnd(y: System, p: Principal, volume: string, newID: string, es: seq<Event>)
    requires Inv(y) && p.role == "controller"
    requires DeleteReply(Apply(y.cfg, p, DeleteVolume, BLANK.(id := volume), newID, y.platform).reply).Answer?
    ensures volume !in y.cloud
    ensures forall j :: j in y.nodes ==> !MountsVolume(y.nodes[j].mounts, volume)
    ensures volume in y.platform.volumes ==> volume !in Run(y, es).cloud
  {
    hide PlatformOk, Shadows, NodeOk, Run, Busy;
    DroppedIsBacked(y.platform, Current(y), y.cloud, y.drifted);
    assert Backs(y.platform, volume, Look(y.cloud, volume), y.drifted);
    DoomedIsNotDeleted(y.cfg, y.platform, p, volume, newID);
    forall j | j in y.nodes ensures !MountsVolume(y.nodes[j].mounts, volume) {
      assert NodeFits(y, j, y.nodes[j]);
      if MountsVolume(y.nodes[j].mounts, volume) {
        EngagedIsSecured(y.cfg, j, y.platform, y.nodes[j], volume);
        var x :| Secures(y.platform, j, volume, x);
        ClaimantServes(y.cfg, y.platform, x);
      }
    }
    if volume in y.platform.volumes { NeverRecreated(y, es, volume); }
  }

  lemma DoomedIsNotDeleted(cfg: Config, s: Platform, p: Principal, volume: string, newID: string)
    requires p.role == "controller"
    requires DeleteReply(Apply(cfg, p, DeleteVolume, BLANK.(id := volume), newID, s).reply).Answer?
    ensures volume in s.volumes ==> s.volumes[volume].state == DELETED
  {
  }

  /** ControllerExpandVolume says OK: the platform and, unless it was lost, the disk have at least the required size. */
  lemma ExpandedEndToEnd(y: System, p: Principal, volume: string, required: int, newID: string)
    requires Inv(y) && p.role == "controller"
    requires var r := BLANK.(id := volume, size := required);
             ExpandReply(Apply(y.cfg, p, ResizeVolume, r, newID, y.platform).reply, required).Answer?
    ensures volume in y.platform.volumes && required <= y.platform.volumes[volume].size
    ensures y.platform.volumes[volume].lastError == Clear && Serving(y.platform.volumes[volume])
    ensures volume in y.cloud ==> required <= y.cloud[volume].size
    ensures volume !in y.drifted ==> volume in y.cloud
  {
    hide AttachmentsOk, GenerationsDistinct, NamesUnique, NodesFit, Shadows;
    DroppedIsBacked(y.platform, Current(y), y.cloud, y.drifted);
    assert Backs(y.platform, volume, Look(y.cloud, volume), y.drifted);
    assert VolumeOk(volume, y.platform.volumes[volume]);
  }

  // ----- the node's replies -----

  /** What holds of node `n` once the RPC it was in, when it looked like `was`, has answered OK. Only these points of
      the agent's code answer OK. */
  ghost predicate Promised(y: System, i: string, was: Node, n: Node) {
    match was.pc
    case Finishing(k) =>
      && k in n.journal && n.journal[k].ready && Held(y.platform, n.journal[k].proof)
      && n.journal[k].path in n.mounts
      && var e := n.mounts[n.journal[k].path];
         && e.volume == k && e.source == DeviceKeyOf(k) && !e.readOnly
         && e.mode == n.journal[k].volume.spec.mode && e.fsType == n.journal[k].volume.spec.fsType
    case Binding(k, t) =>
      && k in n.journal && t in n.journal[k].targets && t in n.mounts
      && n.mounts[t].volume == k && n.mounts[t].source == n.journal[k].path
      && n.mounts[t].readOnly == n.journal[k].targets[t].readOnly
      && n.journal[k].path in n.mounts && n.mounts[n.journal[k].path].volume == k
    case Forgetting(k, t) => t !in n.mounts && k in n.journal && t !in n.journal[k].targets
    case Erasing(k) =>
      && k !in n.journal && !MountsVolume(n.mounts, k)
      && k in was.journal && !Held(y.platform, was.journal[k].proof)
    case Updating(k, v, required, limit) =>
      && k in n.journal && n.journal[k].volume == v && required <= v.size && (limit > 0 ==> v.size <= limit)
      && k in y.platform.volumes && v.size <= y.platform.volumes[k].size
      && n.journal[k].path in n.mounts && n.mounts[n.journal[k].path].volume == k
      && SizedAs(n.mounts, k, v.size)
    case _ => false
  }

  lemma AnswersDoNotFinish(cfg: Config, i: string, s: Platform, n: Node)
    requires Pending(n).Some?
    ensures Answered(n, NodeApply(cfg, i, Pending(n).value, s).reply).pc != Idle(OK)
  {
    RefusalsAreNotOk(cfg, i, Pending(n).value, s);
    hide NodeApply;
  }

  predicate MovesNode(e: Event, i: string) {
    (e.NodeStarts? || e.NodeCalls? || e.NodeSaves? || e.NodeHosts? || e.NodeCrashes?) && e.node == i
  }

  lemma OthersStayPut(y: System, e: Event, i: string)
    requires i in y.nodes && !MovesNode(e, i)
    ensures i in Step(y, e).nodes && Step(y, e).nodes[i] == y.nodes[i]
  {
    hide NodeApply, Answered, Apply, StepVolume, StepAttachment, HostStep, Saved, Begin, FormatRequired;
  }

  lemma HostTurnFinishes(y: System, i: string, f: Fault)
    requires i in y.nodes && !y.nodes[i].pc.Idle? && HostTurned(y, i, f).nodes[i].pc == Idle(OK)
    ensures HostTurned(y, i, f) == WithNode(y, i, HostStep(y.nodes[i], f)) && HostEffect(y.nodes[i]).Some?
  {
    hide HostEffect, FormatRequired;
  }

  lemma CallDoesNotFinish(y: System, i: string, f: Fault)
    requires i in y.nodes && !y.nodes[i].pc.Idle?
    ensures Called(y, i, f).nodes[i].pc != Idle(OK)
  {
    hide NodeApply, Answered;
    if Pending(y.nodes[i]).Some? { AnswersDoNotFinish(y.cfg, i, y.platform, y.nodes[i]); }
  }

  /** A step that takes a busy node to "answered OK" is a save or a host effect that worked. */
  lemma OnlyTheseFinish(y: System, e: Event, i: string)
    requires i in y.nodes && !y.nodes[i].pc.Idle?
    requires i in Step(y, e).nodes && Step(y, e).nodes[i].pc == Idle(OK)
    ensures (e.NodeSaves? && Step(y, e).nodes[i] == Saved(y.nodes[i], e.fault) && Saves(y.nodes[i].pc))
         || (e.NodeHosts? && Step(y, e).nodes[i] == HostStep(y.nodes[i], e.fault) && HostEffect(y.nodes[i]).Some?)
    ensures Step(y, e).platform == y.platform && e.node == i
  {
    hide HostEffect, HostTurned, HostStep, Called, Draft, AfterSave, Apply, VolumeTurned, AttachmentTurned;
    if !MovesNode(e, i) { OthersStayPut(y, e, i); }
    match e {
      case NodeHosts(j, f) => if j == i { HostTurnFinishes(y, i, f); }
      case NodeCalls(j, f) => if j == i { CallDoesNotFinish(y, i, f); }
      case _ =>
    }
  }

  lemma SavedPromise(y: System, i: string, n: Node, f: Fault)
    requires NodeOk(i, y.platform, n) && Saves(n.pc) && Saved(n, f).pc == Idle(OK)
    ensures Promised(y, i, n, Saved(n, f))
  {
    hide EntryOk, AllApart;
    if n.pc.Finishing? {
      var k := n.pc.volume;
      MountAtOwnPath(i, y.platform, n, k, n.journal[k].path);
      assert MountOk(y.platform, n.journal, n.mounts, n.journal[k].path, n.mounts[n.journal[k].path]);
    } else if n.pc.Erasing? {
      NoMountLeft(i, y.platform, n, n.pc.volume);
    } else if n.pc.Updating? {
      MountAtOwnPath(i, y.platform, n, n.pc.volume, n.journal[n.pc.volume].path);
    }
  }

  lemma HostPromise(y: System, i: string, n: Node, f: Fault)
    requires NodeOk(i, y.platform, n) && HostEffect(n).Some? && HostStep(n, f).pc == Idle(OK)
    requires NodeOk(i, y.platform, HostStep(n, f))
    ensures Promised(y, i, n, HostStep(n, f))
  {
    hide AllApart;
    assert n.pc.Binding?;
    var z, k, t := HostStep(n, f), n.pc.volume, n.pc.target;
    assert EntryOk(n.hash, i, y.platform, k, n.journal[k]);
    MountAtOwnPath(i, y.platform, z, k, t);
    assert MountOk(y.platform, z.journal, z.mounts, t, z.mounts[t]);
  }

  /** Whatever happened before, an OK from a node means what its RPC is for. */
  lemma NodeOkMeans(y0: System, es: seq<Event>, e: Event, i: string)
    requires Init(y0)
    requires var y := Run(y0, es);
             && i in y.nodes && !y.nodes[i].pc.Idle?
             && i in Step(y, e).nodes && Step(y, e).nodes[i].pc == Idle(OK)
    ensures Promised(Step(Run(y0, es), e), i, Run(y0, es).nodes[i], Step(Run(y0, es), e).nodes[i])
  {
    hide Init, Run, CoreOk, NodeOk, Step, Promised, Saved, HostStep;
    var y := Run(y0, es);
    InitHolds(y0);
    RunKeeps(y0, es);
    assert NodeFits(y, i, y.nodes[i]);
    OnlyTheseFinish(y, e, i);
    if e.NodeSaves? {
      SavedPromise(Step(y, e), i, y.nodes[i], e.fault);
    } else {
      HostKeeps(i, y.platform, y.nodes[i], e.fault);
      HostPromise(Step(y, e), i, y.nodes[i], e.fault);
    }
  }

  /** An OK without any work: the volume has no mount here at all (unstage), or none at the target except its own
      stage (unpublish). */
  lemma NothingToUndo(y: System, i: string, c: Rpc)
    requires Inv(y) && i in y.nodes && Begin(y.nodes[i], c).pc == Idle(OK)
    ensures c.UnstageVolume? || c.UnpublishVolume?
    ensures c.UnstageVolume? ==> !MountsVolume(y.nodes[i].mounts, c.volume)
    ensures c.UnpublishVolume? ==> var n := y.nodes[i];
      c.target in n.mounts && n.mounts[c.target].volume == c.volume
      ==> c.volume in n.journal && n.journal[c.volume].path == c.target
  {
    hide PlatformOk, Backed, Shadows, PcOk, JournalOk, AllApart;
    var n := y.nodes[i];
    assert NodeFits(y, i, n);
    forall path | path in n.mounts ensures MountOk(y.platform, n.journal, n.mounts, path, n.mounts[path]) {
    }
  }
}
