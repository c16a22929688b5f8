/** Promises about the rest of time: what, once true, no run can undo. */
module Forever {
  import opened Model
  import opened Calls
  import opened Invariants
  import opened Reconciling
  import opened Passes
  import opened Nodes
  import opened NodeInvariant
  import opened NodeCalls
  import opened Linux
  import opened Backing
  import opened Systems
  import opened SystemInvariant
  import opened Safety

  // ----- mkfs -----

  /** The event in which mkfs writes to the volume's device, whether or not the node lives to see it. */
  ghost predicate Formats(y: System, e: Event, k: string) {
    e.NodeHosts? && e.node in y.nodes && y.nodes[e.node].pc == Formatting(k) && k in y.nodes[e.node].journal
        && !e.fault.Before?
  }

  ghost predicate Rewrites(e: Event, k: string) { e.Rewrite? && e.volume == k }

  /** Nothing in the system but mkfs changes what a probe of a device finds. */
  lemma OnlyFormattingWrites(y: System, e: Event, k: string)
    requires Signatures(Step(y, e), k) != Signatures(y, k)
    ensures Formats(y, e, k) || Rewrites(e, k)
  {
    hide Apply, StepVolume, StepAttachment, NodeApply, HostStep, FormatRequired;
  }

  /** Only a blank device whose volume still carries its leave is formatted, and only by the one node using it. */
  lemma FormattingIsGranted(y: System, e: Event, k: string)
    requires Inv(y) && Formats(y, e, k)
    ensures Signatures(y, k) == [] && k in y.platform.volumes && y.platform.volumes[k].allowFormat
    ensures Secured(y.platform, e.node, k)
    ensures forall j :: j in y.nodes && Engaged(y.nodes[j], k) ==> j == e.node
  {
    hide PlatformOk, JournalOk, AllApart, MountsOk, Backed, Shadows;
    assert NodeFits(y, e.node, y.nodes[e.node]);
    EngagedIsSecured(y.cfg, e.node, y.platform, y.nodes[e.node], k);
    forall j | j in y.nodes && Engaged(y.nodes[j], k) ensures j == e.node {
      OneEngagedNow(y, j, e.node, k);
    }
  }

  /** The event in which the platform accepts that the volume is initialized, whether or not the node hears of it. */
  ghost predicate Initializes(y: System, e: Event, k: string) {
    && e.NodeCalls? && !e.fault.Before? && y.txn.None?
    && e.node in y.nodes && y.nodes[e.node].pc == Marking(k) && Pending(y.nodes[e.node]).Some?
    && NodeApply(y.cfg, e.node, Pending(y.nodes[e.node]).value, y.platform).reply.Done?
  }

  ghost predicate FormatWithdrawn(s: Platform, k: string) { k in s.volumes && !s.volumes[k].allowFormat }

  lemma InitializingWithdraws(y: System, e: Event, k: string)
    requires Inv(y) && Initializes(y, e, k)
    ensures FormatWithdrawn(Step(y, e).platform, k)
  {
    hide PlatformOk, JournalOk, AllApart, MountsOk, Backed, Shadows, Answered, NodeApply;
    var n := y.nodes[e.node];
    assert NodeFits(y, e.node, n);
    AskedOfEntry(y.cfg, e.node, y.platform, n);
    MarkWithdraws(y.cfg, e.node, Pending(n).value, y.platform);
  }

  lemma MarkWithdraws(cfg: Config, i: string, q: (Op, Request), s: Platform)
    requires q.0 == MarkInitialized && NodeApply(cfg, i, q, s).reply.Done?
    ensures FormatWithdrawn(NodeApply(cfg, i, q, s).state, q.1.volume)
  {
  }

  /** After `MarkInitialized` has committed for a volume, no node ever formats it again, however blank it looks. */
  lemma InitializedForGood(y: System, e: Event, k: string, es: seq<Event>, later: Event)
    requires Inv(y) && Initializes(y, e, k)
    ensures !Formats(Run(Step(y, e), es), later, k)
  {
    hide Inv, Step, Run, Initializes, Formats;
    InitializingWithdraws(y, e, k);
    StepKeeps(y, e);
    RunEvolves(Step(y, e), es);
    RunKeeps(Step(y, e), es);
    if Formats(Run(Step(y, e), es), later, k) { FormattingIsGranted(Run(Step(y, e), es), later, k); }
  }

  ghost predicate NeverRewrites(es: seq<Event>, k: string) { forall n :: 0 <= n < |es| ==> !Rewrites(es[n], k) }

  lemma FormattingLeavesSignature(y: System, e: Event, k: string)
    requires Formats(y, e, k)
    ensures Signatures(Step(y, e), k) != []
  {
  }

  lemma {:induction false} SignatureStays(y: System, es: seq<Event>, k: string)
    requires Inv(y) && Signatures(y, k) != [] && NeverRewrites(es, k)
    ensures Signatures(Run(y, es), k) != []
    decreases |es|
  {
    hide Inv, Step, Formats;
    if es != [] {
      StepKeeps(y, es[0]);
      assert !Rewrites(es[0], k);
      if Signatures(Step(y, es[0]), k) != Signatures(y, k) {
        OnlyFormattingWrites(y, es[0], k);
        FormattingIsGranted(y, es[0], k);
      }
      SignatureStays(Step(y, es[0]), es[1..], k);
    }
  }

  /** A crash between mkfs and `MarkInitialized` costs no data: unless the device is wiped from outside, no node
      formats it a second time. */
  lemma FormattedOnce(y: System, e: Event, k: string, es: seq<Event>, later: Event)
    requires Inv(y) && Formats(y, e, k) && NeverRewrites(es, k)
    ensures !Formats(Run(Step(y, e), es), later, k)
  {
    hide Inv, Step, Run, Formats;
    FormattingLeavesSignature(y, e, k);
    StepKeeps(y, e);
    SignatureStays(Step(y, e), es, k);
    RunKeeps(Step(y, e), es);
    if Formats(Run(Step(y, e), es), later, k) { FormattingIsGranted(Run(Step(y, e), es), later, k); }
  }

  // ----- incarnations -----

  /** In any reachable state and any scope that covers it, the search for the highest generation finds the live
      attachment. */
  lemma LatestFindsTheLive(y: System, volume: string, instance: string, x: string)
    requires Inv(y) && IsLiveOn(y.platform, volume, x) && InScope(y.platform.attachments[x], volume, instance)
    ensures Latest(y.platform, volume, instance) == Some(x)
    ensures volume in y.platform.volumes
        && y.platform.attachments[x].link.generation == y.platform.volumes[volume].generation
    ensures forall z :: z in y.platform.attachments && z != x && y.platform.attachments[z].link.volume == volume
                ==> 1 <= y.platform.attachments[z].link.generation < y.platform.attachments[x].link.generation
  {
    hide NodesFit, Backed, Shadows;
    var s := y.platform;
    assert AttachmentOk(y.cfg, s, x, s.attachments[x]);
    forall z | z in s.attachments && z != x && s.attachments[z].link.volume == volume
      ensures 1 <= s.attachments[z].link.generation < s.attachments[x].link.generation
    {
      assert AttachmentOk(y.cfg, s, z, s.attachments[z]);
      assert s.attachments[z].link.generation == s.attachments[x].link.generation ==> SameIncarnation(s, x, z);
    }
    assert IsLatest(s, volume, instance, x);
    LatestIsLive(y.cfg, s, volume, instance, Latest(s, volume, instance).value, x);
  }

  /** Once an attachment is detached, its proof is worthless for ever: no node call that names it succeeds, except a
      release, which then changes nothing. */
  lemma StaleProofsFail(y: System, es: seq<Event>, x: string, i: string, q: (Op, Request))
    requires Inv(y) && x in y.platform.attachments && !Live(y.platform.attachments[x])
    requires q.1.attachment == x && IsUseOp(q.0)
    ensures var z := Run(y, es);
            var ap := NodeApply(z.cfg, i, q, z.platform);
            ap.state == z.platform && (q.0 != ReleaseUse ==> ap.reply.Rejected?)
  {
    hide PlatformOk, Run, Backed, NodesFit, NodeApply;
    RunEvolves(y, es);
    RunKeeps(y, es);
    DetachedRefuses(Run(y, es).cfg, Run(y, es).platform, x, i, q);
  }

  lemma DetachedRefuses(cfg: Config, s: Platform, x: string, i: string, q: (Op, Request))
    requires PlatformOk(cfg, s) && x in s.attachments && !Live(s.attachments[x])
    requires q.1.attachment == x && IsUseOp(q.0)
    ensures NodeApply(cfg, i, q, s).state == s && (q.0 != ReleaseUse ==> NodeApply(cfg, i, q, s).reply.Rejected?)
  {
    DetachedIsUnused(cfg, s, x);
    hide PlatformOk, ProofMatches, ValidID;
    assert s.attachments[x].uses - {q.1.use} == {};
    assert WithAttachment(s, x, s.attachments[x]) == s;
  }

  lemma DetachedIsUnused(cfg: Config, s: Platform, x: string)
    requires PlatformOk(cfg, s) && x in s.attachments && !Live(s.attachments[x])
    ensures s.attachments[x].uses == {}
  {
    assert AttachmentOk(cfg, s, x, s.attachments[x]);
  }

  // ----- the idempotency key -----

  lemma {:induction false} ZonesStay(y: System, es: seq<Event>)
    ensures Run(y, es).cfg.zones == y.cfg.zones
    decreases |es|
  {
    if es != [] {
      StepZones(y, es[0]);
      ZonesStay(Step(y, es[0]), es[1..]);
    }
  }

  lemma StepZones(y: System, e: Event)
    ensures Step(y, e).cfg.zones == y.cfg.zones
  {
    hide Apply, StepVolume, StepAttachment, NodeApply, HostStep, FormatRequired;
  }

  /** From the moment a create call is answered, the same call is answered with the same volume, and creates nothing,
      exactly until that volume's deletion is requested; after that the name is refused for ever. */
  lemma CreationIsIdempotent(y: System, p: Principal, r: Request, newID: string, es: seq<Event>, otherID: string)
    requires Inv(y) && p.role == "controller" && y.txn.None? && Fresh(y.platform, newID)
    requires Apply(y.cfg, p, CreateVolume, r, newID, y.platform).reply.Done?
    ensures var first := Apply(y.cfg, p, CreateVolume, r, newID, y.platform).reply.volume;
            var z := Run(Step(y, ApiCall(p, CreateVolume, r, newID)), es);
            var again := Apply(z.cfg, p, CreateVolume, r, otherID, z.platform);
            && first.Some? && first.value.id in z.platform.volumes && again.state == z.platform
            && var v := z.platform.volumes[first.value.id];
               again.reply == if v.deleteRequested then Rejected(AlreadyExists) else Done(Some(v), None, None)
  {
    hide PlatformOk, NodesFit, Backed, Shadows, Run, Step, CreatableVolume;
    var u := Step(y, ApiCall(p, CreateVolume, r, newID));
    var z := Run(u, es);
    var k := CreatedNow(y, p, r, newID);
    StepKeeps(y, ApiCall(p, CreateVolume, r, newID));
    RunKeeps(u, es);
    RunEvolves(u, es);
    ZonesStay(u, es);
    StepZones(y, ApiCall(p, CreateVolume, r, newID));
    CreatableStill(y.cfg, z.cfg, r);
    NamedUnique(z.cfg, z.platform, p, r.name, k);
  }

  lemma CreatableStill(cfg: Config, cfg': Config, r: Request)
    requires cfg.zones == cfg'.zones
    ensures CreatableVolume(cfg, r) == CreatableVolume(cfg', r)
  {
    hide ValidID, CapabilityKnown;
  }

  lemma CreatedNow(y: System, p: Principal, r: Request, newID: string) returns (k: string)
    requires Inv(y) && p.role == "controller" && y.txn.None? && Fresh(y.platform, newID)
    requires Apply(y.cfg, p, CreateVolume, r, newID, y.platform).reply.Done?
    ensures var u := Step(y, ApiCall(p, CreateVolume, r, newID));
            var first := Apply(y.cfg, p, CreateVolume, r, newID, y.platform).reply.volume;
            && first.Some? && k == first.value.id && k in u.platform.volumes && u.platform.volumes[k] == first.value
            && first.value.spec == SpecOf(p, r) && IsNamed(u.platform, p, r.name, k) && CreatableVolume(y.cfg, r)
  {
    hide NodesFit, Backed, Shadows, CreatableVolume, AttachmentsOk, GenerationsDistinct, NamesUnique;
    var first := Apply(y.cfg, p, CreateVolume, r, newID, y.platform).reply.volume;
    k := first.value.id;
    var prior := Named(y.platform, p, r.name);
    assert prior.Some? ==> VolumeOk(prior.value, y.platform.volumes[prior.value]);
  }

  // ----- sizes -----

  /** Mount, platform, cloud and goal, in that order; and what the two states say about them. */
  lemma SizeChain(y: System, i: string, path: string)
    requires Inv(y) && i in y.nodes && path in y.nodes[i].mounts
    ensures var k := y.nodes[i].mounts[path].volume;
            && k in y.platform.volumes
            && var v := y.platform.volumes[k];
               && y.nodes[i].mounts[path].size <= v.size <= v.desired <= MAX_SIZE
               && (k in y.cloud ==> v.size <= y.cloud[k].size <= v.desired)
               && (k !in y.drifted ==> k in y.cloud)
               && (v.state == AVAILABLE ==> v.size == v.desired)
               && (v.state == RESIZING ==> v.size < v.desired)
  {
    hide AttachmentsOk, GenerationsDistinct, NamesUnique, PcOk, AllApart, JournalOk;
    var n := y.nodes[i];
    var k := n.mounts[path].volume;
    assert NodeFits(y, i, n);
    assert MountOk(y.platform, n.journal, n.mounts, path, n.mounts[path]);
    DroppedIsBacked(y.platform, Current(y), y.cloud, y.drifted);
    assert VolumeOk(k, y.platform.volumes[k]);
    assert Backs(y.platform, k, Look(y.cloud, k), y.drifted);
    MountChained(y, i, path);
  }

  ghost predicate Created(y: System, k: string) {
    k in y.platform.volumes && y.platform.volumes[k].state != CREATING
  }

  lemma DiskGrows(y: System, e: Event, k: string)
    requires Inv(y) && k in y.cloud && k in Step(y, e).cloud
    ensures y.cloud[k].size <= Step(y, e).cloud[k].size
  {
    hide CoreOk, NodesFit;
    match e {
      case VolumeTurn(j, f) => DiskGrowsInVolumeTurn(y, j, f, k);
      case AttachmentTurn(x, f) => DiskGrowsInAttachmentTurn(y, x, f, k);
      case _ =>
    }
  }

  lemma DiskGrowsInVolumeTurn(y: System, j: string, f: Faults, k: string)
    requires Inv(y) && k in y.cloud && k in VolumeTurned(y, j, f).cloud
    ensures y.cloud[k].size <= VolumeTurned(y, j, f).cloud[k].size
  {
    hide PlatformOk, NodesFit, VolumeItem, Shadows;
    if VolumeTurned(y, j, f) != y && j == k {
      var s := Current(y);
      assert Backs(s, k, Look(y.cloud, k), y.drifted);
      VolumeFacts(y.cfg, s, k);
      VolumeItemMoves(k, s.volumes[k], Busy(s, k), Look(y.cloud, k), f);
    }
  }

  lemma DiskGrowsInAttachmentTurn(y: System, x: string, f: Faults, k: string)
    requires k in y.cloud && k in AttachmentTurned(y, x, f).cloud
    ensures y.cloud[k].size <= AttachmentTurned(y, x, f).cloud[k].size
  {
    hide AttachmentItem;
    if AttachmentTurned(y, x, f) != y {
      var a, s := Current(y).attachments[x], Current(y);
      AttachmentItemFrame(a, InstanceActive(y.cfg, a.link.instance), s.volumes[a.link.volume].lastError,
                          Look(y.cloud, a.link.volume), f);
    }
  }

  /** The disk of a created volume never shrinks, for as long as it exists. */
  lemma {:induction false} DisksNeverShrink(y: System, es: seq<Event>, k: string)
    requires Inv(y) && Created(y, k) && k in y.cloud && k in Run(y, es).cloud
    ensures y.cloud[k].size <= Run(y, es).cloud[k].size
    decreases |es|
  {
    hide Inv, Step;
    if es != [] {
      var z := Step(y, es[0]);
      StepKeeps(y, es[0]);
      StepEvolves(y, es[0]);
      if k in z.cloud {
        DiskGrows(y, es[0], k);
        DisksNeverShrink(z, es[1..], k);
      } else {
        NeverRecreated(z, es[1..], k);
        assert false;
      }
    }
  }
}
