/** Which recorded errors can occur at all, and which only after something outside has touched a disk. */
module Troubles {
  import opened Model
  import opened Provider
  import opened Calls
  import opened Invariants
  import opened Reconciling
  import opened Passes
  import opened Nodes
  import opened NodeCalls
  import opened Backing
  import opened Systems
  import opened SystemInvariant

  /** Never "still attached", never "device identity changed"; a missing disk only where drift took it. */
  predicate VolumeTrouble(e: Trouble, drifted: bool) {
    e.Clear? || e.Failed? || (drifted && e.DiskGone?)
  }

  /** Never a writer conflict, never an identity mismatch; a disk or attachment is lost only where drift took it. */
  predicate AttachmentTrouble(e: Trouble, drifted: bool) {
    e.Clear? || e.Failed? || e.Fencing? || (drifted && (e.Drifted? || e.DiskMissing?))
  }

  /** A tombstone has nothing left to complain about. */
  predicate VolumeExplained(v: Volume, drifted: bool) {
    VolumeTrouble(v.lastError, drifted) && (v.state == DELETED ==> v.lastError == Clear)
  }

  ghost predicate Explained(s: Platform, drifted: set<string>) {
    && (forall k :: k in s.volumes ==> VolumeExplained(s.volumes[k], k in drifted))
    && (forall x :: x in s.attachments ==>
          AttachmentTrouble(s.attachments[x].lastError, s.attachments[x].link.volume in drifted))
  }

  ghost predicate AllExplained(y: System) {
    Explained(y.platform, y.drifted) && Explained(Current(y), y.drifted)
  }

  lemma VolumeItemTrouble(k: string, v: Volume, busy: bool, disk: Option<Disk>, f: Faults, drifted: bool)
    requires VolumeOk(k, v) && DeviceOk(k, v) && VolumeExplained(v, drifted)
    requires disk.Some? ==> disk.value.deviceKey == DeviceKeyOf(k)
    requires disk.Some? && disk.value.instance != "" ==> busy
    requires !drifted && Serving(v) ==> disk.Some?
    ensures VolumeExplained(VolumeItem(v, busy, disk, f).volume, drifted)
  {
  }

  lemma AttachmentItemTrouble(a: Attachment, active: bool, error: Trouble, disk: Option<Disk>, f: Faults, drifted: bool)
    requires AttachmentTrouble(a.lastError, drifted)
    requires Live(a) && disk.Some? && disk.value.instance != "" ==> AttachedBy(disk, a)
    requires !drifted && Live(a) ==> disk.Some?
    requires !drifted && Claims(a) ==> AttachedBy(disk, a)
    ensures AttachmentTrouble(AttachmentItem(a, active, error, disk, f).attachment.lastError, drifted)
  {
  }

  lemma VolumeTurnExplained(y: System, k: string, f: Faults)
    requires Inv(y) && AllExplained(y)
    ensures AllExplained(VolumeTurned(y, k, f))
  {
    hide PlatformOk, NodesFit, VolumeItem, Shadows;
    if VolumeTurned(y, k, f) != y {
      var s, disk := Current(y), Look(y.cloud, k);
      assert Backs(s, k, disk, y.drifted);
      VolumeFacts(y.cfg, s, k);
      if disk.Some? && disk.value.instance != "" { assert IsLiveOn(s, k, disk.value.attachment); }
      VolumeItemTrouble(k, s.volumes[k], Busy(s, k), disk, f, k in y.drifted);
    }
  }

  lemma AttachmentTurnExplained(y: System, x: string, f: Faults)
    requires Inv(y) && AllExplained(y)
    ensures AllExplained(AttachmentTurned(y, x, f))
  {
    hide PlatformOk, NodesFit, AttachmentItem, Shadows;
    if AttachmentTurned(y, x, f) != y {
      var s := Current(y);
      var a := s.attachments[x];
      var k := a.link.volume;
      var disk := Look(y.cloud, k);
      assert Backs(s, k, disk, y.drifted);
      AttachmentFacts(y.cfg, s, x, disk, y.drifted);
      assert k !in y.drifted ==> ClaimMet(s, x, disk);
      AttachmentItemTrouble(a, InstanceActive(y.cfg, a.link.instance), s.volumes[k].lastError, disk, f, k in y.drifted);
    }
  }

  /** An API call records no error. */
  lemma CallExplained(s: Platform, t: Platform, drifted: set<string>)
    requires Explained(s, drifted) && CallFrame(s, t)
    ensures Explained(t, drifted)
  {
    forall k | k in t.volumes ensures VolumeExplained(t.volumes[k], k in drifted) {
      assert k in s.volumes ==> VolumeExplained(s.volumes[k], k in drifted);
    }
  }

  lemma ApiCallExplained(y: System, p: Principal, op: Op, r: Request, newID: string)
    requires Inv(y) && AllExplained(y) && y.txn.None? && Fresh(y.platform, newID)
    ensures Explained(Apply(y.cfg, p, op, r, newID, y.platform).state, y.drifted)
  {
    hide NodesFit, Apply, PlatformOk, CallFrame, Explained;
    ApplyFrame(y.cfg, p, op, r, newID, y.platform);
    CallExplained(y.platform, Apply(y.cfg, p, op, r, newID, y.platform).state, y.drifted);
  }

  lemma NodeCallExplained(y: System, i: string, q: (Op, Request))
    requires AllExplained(y)
    ensures Explained(NodeApply(y.cfg, i, q, y.platform).state, y.drifted)
  {
    hide NodeCall, CallFrame, Explained;
    NodeCallFrame(y.cfg, IdentityOf(y.cfg, i), q.0, q.1, y.platform);
    CallExplained(y.platform, NodeApply(y.cfg, i, q, y.platform).state, y.drifted);
  }

  lemma StepExplained(y: System, e: Event)
    requires Inv(y) && AllExplained(y)
    ensures AllExplained(Step(y, e))
  {
    hide Inv, Apply, NodeApply, VolumeTurned, AttachmentTurned, Explained, Fresh, HostTurned, Answered;
    match e {
      case ApiCall(p, op, r, newID) =>
        if y.txn.None? && Fresh(y.platform, newID) { ApiCallExplained(y, p, op, r, newID); }
      case VolumeTurn(k, f) => VolumeTurnExplained(y, k, f);
      case AttachmentTurn(x, f) => AttachmentTurnExplained(y, x, f);
      case NodeCalls(i, d) =>
        if i in y.nodes && Pending(y.nodes[i]).Some? { NodeCallExplained(y, i, Pending(y.nodes[i]).value); }
      case DetachDrift(k) => MoreDrift(y, y.drifted + {k});
      case DeleteDrift(k) => MoreDrift(y, y.drifted + {k});
      case _ =>
    }
  }

  lemma MoreDrift(y: System, drifted: set<string>)
    requires AllExplained(y) && y.drifted <= drifted
    ensures Explained(y.platform, drifted) && Explained(Current(y), drifted)
  {
  }

  lemma {:induction false} RunExplained(y: System, es: seq<Event>)
    requires Inv(y) && AllExplained(y)
    ensures AllExplained(Run(y, es))
    decreases |es|
  {
    hide Inv, Step, AllExplained;
    if es != [] {
      StepExplained(y, es[0]);
      StepKeeps(y, es[0]);
      RunExplained(Step(y, es[0]), es[1..]);
    }
  }

  lemma InitExplained(y: System)
    requires Init(y)
    ensures AllExplained(y)
  {
  }

  /** In every reachable state: no volume ever reports a disk still attached or a changed device, no attachment ever
      reports a writer conflict or a mismatched identity; and a lost disk is reported only where drift took it. */
  lemma ErrorsAreExplained(y0: System, es: seq<Event>)
    requires Init(y0)
    ensures AllExplained(Run(y0, es))
  {
    InitHolds(y0);
    InitExplained(y0);
    RunExplained(y0, es);
  }
}
