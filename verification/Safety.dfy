/** What the whole system promises, in every state that any run can reach. */
module Safety {
  import opened Model
  import opened Provider
  import opened Calls
  import opened Invariants
  import opened Reconciling
  import opened Passes
  import opened Hosts
  import opened Nodes
  import opened NodeInvariant
  import opened NodeCalls
  import opened Backing
  import opened Systems
  import opened SystemInvariant

  // ----- one machine -----

  ghost predicate CloudAttachedTo(y: System, k: string, i: string) {
    k in y.cloud && y.cloud[k].instance == i && i != ""
  }

  /** The machine is registered, and in the volume's region and zone. */
  ghost predicate InZoneOf(y: System, i: string, k: string) {
    && k in y.platform.volumes && i in y.cfg.instances
    && y.cfg.instances[i].region == y.platform.volumes[k].spec.region
    && y.cfg.instances[i].zone == y.platform.volumes[k].spec.zone
  }

  /** In every reachable state every attachment joins a volume to a machine of its own region and zone. */
  lemma AttachedInZone(y0: System, es: seq<Event>, x: string)
    requires Init(y0) && x in Run(y0, es).platform.attachments
    ensures var y := Run(y0, es);
            InZoneOf(y, y.platform.attachments[x].link.instance, y.platform.attachments[x].link.volume)
  {
    InitHolds(y0);
    RunKeeps(y0, es);
    AttachedInZoneNow(Run(y0, es), x);
  }

  lemma AttachedInZoneNow(y: System, x: string)
    requires Inv(y) && x in y.platform.attachments
    ensures InZoneOf(y, y.platform.attachments[x].link.instance, y.platform.attachments[x].link.volume)
  {
    hide NodesFit, Backed, Shadows;
    assert AttachmentOk(y.cfg, y.platform, x, y.platform.attachments[x]);
  }

  /** A node that mounts a volume is in the volume's zone. */
  lemma EngagedInZone(y: System, i: string, k: string)
    requires Inv(y) && i in y.nodes && Engaged(y.nodes[i], k)
    ensures InZoneOf(y, i, k)
  {
    hide PlatformOk, NodeOk, Backed, Shadows;
    assert NodeFits(y, i, y.nodes[i]);
    EngagedIsSecured(y.cfg, i, y.platform, y.nodes[i], k);
    var x :| Secures(y.platform, i, k, x);
    AttachedInZoneNow(y, x);
  }

  /** After any run whatever - crashes, lost answers, dropped reconciles, drift - a volume is mounted on at most one
      node, and if the cloud has its disk attached anywhere, it is to that node. */
  lemma SingleWriter(y0: System, es: seq<Event>, k: string, i: string)
    requires Init(y0)
    requires var y := Run(y0, es); i in y.nodes && MountsVolume(y.nodes[i].mounts, k)
    ensures var y := Run(y0, es);
            && (forall j :: j in y.nodes && MountsVolume(y.nodes[j].mounts, k) ==> j == i)
            && (forall j :: CloudAttachedTo(y, k, j) ==> j == i)
            && InZoneOf(y, i, k)
  {
    var y := Run(y0, es);
    InitHolds(y0);
    RunKeeps(y0, es);
    EngagedInZone(y, i, k);
    hide Init, Run, NodeOk, PlatformOk, Shadows;
    forall j | j in y.nodes && MountsVolume(y.nodes[j].mounts, k) ensures j == i {
      OneEngagedNow(y, i, j, k);
    }
    forall j | CloudAttachedTo(y, k, j) ensures j == i {
      AttachedToTheUser(y, i, k);
    }
  }

  lemma AttachedToTheUser(y: System, i: string, k: string)
    requires Inv(y) && i in y.nodes && Engaged(y.nodes[i], k)
    ensures k in y.cloud && y.cloud[k].instance != "" ==> y.cloud[k].instance == i
  {
    hide NodeOk, PlatformOk;
    assert NodeFits(y, i, y.nodes[i]);
    EngagedIsSecured(y.cfg, i, y.platform, y.nodes[i], k);
    DroppedIsBacked(y.platform, Current(y), y.cloud, y.drifted);
    var x :| Secures(y.platform, i, k, x);
    assert Backs(y.platform, k, Look(y.cloud, k), y.drifted);
    if k in y.cloud && y.cloud[k].instance != "" {
      AtMostOneLive(y.cfg, y.platform, x, y.cloud[k].attachment);
    }
  }

  // ----- from a mount to the cloud -----

  /** Every link from a host mount to the cloud: the mount is the volume's journal entry's, the entry's use is counted
      by a live attachment of this volume to this node and, unless the disk was tampered with, the disk is attached by
      it. */
  ghost predicate Chained(y: System, i: string, path: string)
    requires i in y.nodes && path in y.nodes[i].mounts
  {
    var n := y.nodes[i];
    var k := n.mounts[path].volume;
    && k in n.journal && (path == n.journal[k].path || path in n.journal[k].targets)
    && var p := n.journal[k].proof;
       && IsLiveOn(y.platform, k, p.attachment)
       && y.platform.attachments[p.attachment].link.instance == i
       && y.platform.attachments[p.attachment].link.generation == p.generation
       && p.use in y.platform.attachments[p.attachment].uses
       && (k !in y.drifted ==> AttachedBy(Look(y.cloud, k), y.platform.attachments[p.attachment]))
  }

  lemma MountsAreChained(y0: System, es: seq<Event>, i: string, path: string)
    requires Init(y0)
    requires var y := Run(y0, es); i in y.nodes && path in y.nodes[i].mounts
    ensures Chained(Run(y0, es), i, path)
  {
    InitHolds(y0);
    RunKeeps(y0, es);
    MountChained(Run(y0, es), i, path);
  }

  lemma MountChained(y: System, i: string, path: string)
    requires Inv(y) && i in y.nodes && path in y.nodes[i].mounts
    ensures Chained(y, i, path)
  {
    hide PlatformOk, PcOk, AllApart;
    var n := y.nodes[i];
    assert NodeFits(y, i, n);
    var k := n.mounts[path].volume;
    assert MountOk(y.platform, n.journal, n.mounts, path, n.mounts[path]);
    assert EntryOk(n.hash, i, y.platform, k, n.journal[k]);
    InUseIsLive(y, n.journal[k].proof.attachment);
  }

  /** An attachment in use is live and, on an untouched disk, the one the disk is attached by. */
  lemma InUseIsLive(y: System, x: string)
    requires Inv(y) && x in y.platform.attachments && y.platform.attachments[x].uses != {}
    ensures IsLiveOn(y.platform, y.platform.attachments[x].link.volume, x)
    ensures var k := y.platform.attachments[x].link.volume;
            k !in y.drifted ==> AttachedBy(Look(y.cloud, k), y.platform.attachments[x])
  {
    hide PlatformOk;
    var k := y.platform.attachments[x].link.volume;
    ClaimantIsLive(y.cfg, y.platform, x);
    DroppedIsBacked(y.platform, Current(y), y.cloud, y.drifted);
    assert Backs(y.platform, k, Look(y.cloud, k), y.drifted);
    assert k !in y.drifted ==> ClaimMet(y.platform, x, Look(y.cloud, k));
  }

  // ----- journal and mount table -----

  /** In every reachable state of every node, whatever crashed: no two journal entries share a path, every mount sits
      at a path of its own volume's entry with that entry's source, mode and read-only flag, a target's stage is
      mounted too, and the host effect the agent is about to cause meets no collision. */
  lemma JournalsAndMountsAgree(y0: System, es: seq<Event>, i: string)
    requires Init(y0) && i in Run(y0, es).nodes
    ensures var y := Run(y0, es);
            var n := y.nodes[i];
            && AllApart(n.journal) && MountsOk(y.platform, n.journal, n.mounts)
            && (HostEffect(n).Some?
                ==> HostEffect(n).value.error != StageCollision && HostEffect(n).value.error != TargetCollision)
  {
    InitHolds(y0);
    RunKeeps(y0, es);
    hide Init, Run, CoreOk, JournalOk, AllApart, MountsOk, PcOk, HostEffect;
    var y := Run(y0, es);
    assert NodeFits(y, i, y.nodes[i]);
    if HostEffect(y.nodes[i]).Some? { NoCollision(i, y.platform, y.nodes[i]); }
  }

  // ----- platform and cloud -----

  /** In every reachable state an attached disk names a live attachment of its own volume to that very instance; the
      volume has no other live attachment; and a volume whose deletion was requested has none. */
  lemma CloudAgrees(y0: System, es: seq<Event>, k: string)
    requires Init(y0) && k in Run(y0, es).platform.volumes
    ensures var y := Run(y0, es);
            && (k in y.cloud && y.cloud[k].instance != "" ==>
                 && IsLiveOn(y.platform, k, y.cloud[k].attachment)
                 && y.platform.attachments[y.cloud[k].attachment].link.instance == y.cloud[k].instance)
            && (forall x, z :: IsLiveOn(y.platform, k, x) && IsLiveOn(y.platform, k, z) ==> x == z)
            && (y.platform.volumes[k].deleteRequested ==> !Busy(y.platform, k))
  {
    InitHolds(y0);
    RunKeeps(y0, es);
    CloudAgreesNow(Run(y0, es), k);
  }

  lemma CloudAgreesNow(y: System, k: string)
    requires Inv(y) && k in y.platform.volumes
    ensures k in y.cloud && y.cloud[k].instance != "" ==>
      && IsLiveOn(y.platform, k, y.cloud[k].attachment)
      && y.platform.attachments[y.cloud[k].attachment].link.instance == y.cloud[k].instance
    ensures forall x, z :: IsLiveOn(y.platform, k, x) && IsLiveOn(y.platform, k, z) ==> x == z
    ensures y.platform.volumes[k].deleteRequested ==> !Busy(y.platform, k)
  {
    hide PlatformOk, NodesFit, Shadows, Intact;
    DroppedIsBacked(y.platform, Current(y), y.cloud, y.drifted);
    assert Backs(y.platform, k, Look(y.cloud, k), y.drifted);
    forall x, z | IsLiveOn(y.platform, k, x) && IsLiveOn(y.platform, k, z) ensures x == z {
      AtMostOneLive(y.cfg, y.platform, x, z);
    }
    if Busy(y.platform, k) {
      ClaimantServes(y.cfg, y.platform, LiveOn(y.platform, k).value);
      VolumeFacts(y.cfg, y.platform, k);
    }
  }

  // ----- nothing but the world outside takes a disk in use away -----

  predicate TouchesDisk(e: Event, k: string) {
    (e.DetachDrift? || e.DeleteDrift?) && e.volume == k
  }

  /** The disk is as present and as attached as before, and no smaller. */
  ghost predicate SamePlace(was: Option<Disk>, now: Option<Disk>) {
    && (now.Some? <==> was.Some?)
    && (now.Some? ==> HeldBy(now.value, was.value.instance, was.value.attachment) && was.value.size <= now.value.size)
  }

  ghost predicate InUse(y: System, x: string, k: string) {
    x in y.platform.attachments && y.platform.attachments[x].uses != {} && y.platform.attachments[x].link.volume == k
  }

  /** While a volume is in use no event of the system creates, deletes, attaches, detaches or shrinks its disk - not
      even if drift has already put the disk somewhere else. */
  lemma InUseIsLeftAlone(y: System, e: Event, x: string, k: string)
    requires Inv(y) && InUse(y, x, k) && !TouchesDisk(e, k)
    ensures SamePlace(Look(y.cloud, k), Look(Step(y, e).cloud, k))
  {
    hide CoreOk, NodesFit;
    if e.VolumeTurn? && VolumeTurned(y, e.volume, e.faults) != y {
      InUseSurvivesVolumeTurn(y, e.volume, e.faults, x, k);
    } else if e.AttachmentTurn? && AttachmentTurned(y, e.attachment, e.faults) != y {
      InUseSurvivesAttachmentTurn(y, e.attachment, e.faults, x, k);
    }
  }

  lemma InUseSurvivesVolumeTurn(y: System, j: string, f: Faults, x: string, k: string)
    requires Inv(y) && InUse(y, x, k) && y.txn.Some? && j in y.txn.value.volumes && j in Current(y).volumes
    ensures SamePlace(Look(y.cloud, k), Look(VolumeTurned(y, j, f).cloud, k))
  {
    hide PlatformOk, VolumeItem, NodesFit;
    if j == k {
      var s := Current(y);
      ClaimantIsLive(y.cfg, s, x);
      ClaimantServes(y.cfg, s, x);
      assert Backs(s, k, Look(y.cloud, k), y.drifted);
      VolumeFacts(y.cfg, s, k);
      VolumeItemMoves(k, s.volumes[k], true, Look(y.cloud, k), f);
    }
  }

  lemma ClaimantServes(cfg: Config, s: Platform, x: string)
    requires PlatformOk(cfg, s) && x in s.attachments && Live(s.attachments[x])
    ensures s.attachments[x].link.volume in s.volumes && Serving(s.volumes[s.attachments[x].link.volume])
  {
    assert AttachmentOk(cfg, s, x, s.attachments[x]);
  }

  lemma InUseSurvivesAttachmentTurn(y: System, w: string, f: Faults, x: string, k: string)
    requires Inv(y) && InUse(y, x, k) && y.txn.Some? && w in y.txn.value.attachments
    requires AttachmentTurned(y, w, f) != y
    ensures SamePlace(Look(y.cloud, k), Look(AttachmentTurned(y, w, f).cloud, k))
  {
    hide PlatformOk, AttachmentItem, NodesFit;
    var s := Current(y);
    if s.attachments[w].link.volume == k {
      var a, disk := s.attachments[w], Look(y.cloud, k);
      ClaimantIsLive(y.cfg, s, x);
      assert Backs(s, k, disk, y.drifted);
      AttachmentFacts(y.cfg, s, w, disk, y.drifted);
      if Live(a) {
        AtMostOneLive(y.cfg, s, w, x);
        ItemInUse(a, InstanceActive(y.cfg, a.link.instance), s.volumes[k].lastError, disk, f);
      } else {
        DeadItem(a, InstanceActive(y.cfg, a.link.instance), s.volumes[k].lastError, disk, f);
      }
    }
  }

  lemma ItemInUse(a: Attachment, active: bool, error: Trouble, disk: Option<Disk>, f: Faults)
    requires Claims(a) && a.uses != {} && (a.state == ATTACHED || a.deleteRequested)
    ensures SamePlace(disk, AttachmentItem(a, active, error, disk, f).disk)
  {
  }

  ghost predicate MountedSomewhere(y: System, k: string) {
    exists i :: i in y.nodes && MountsVolume(y.nodes[i].mounts, k)
  }

  /** Before every event of the run some node has the volume mounted, and the world outside keeps its hands off. */
  ghost predicate MountedThroughout(y: System, es: seq<Event>, k: string)
    decreases |es|
  {
    es == [] || (MountedSomewhere(y, k) && !TouchesDisk(es[0], k) && MountedThroughout(Step(y, es[0]), es[1..], k))
  }

  lemma MountedIsInUse(y: System, k: string) returns (x: string)
    requires Inv(y) && MountedSomewhere(y, k)
    ensures InUse(y, x, k)
  {
    hide NodeOk, PlatformOk;
    var i :| i in y.nodes && MountsVolume(y.nodes[i].mounts, k);
    assert NodeFits(y, i, y.nodes[i]);
    EngagedIsSecured(y.cfg, i, y.platform, y.nodes[i], k);
    x :| Secures(y.platform, i, k, x);
  }

  /** The detach barrier: however long a volume stays mounted, whatever the rest of the system does meanwhile, its
      disk stays where it is. */
  lemma {:induction false} DetachBarrier(y: System, es: seq<Event>, k: string)
    requires Inv(y) && MountedThroughout(y, es, k)
    ensures SamePlace(Look(y.cloud, k), Look(Run(y, es).cloud, k))
    decreases |es|
  {
    hide Inv, Step;
    if es != [] {
      var x := MountedIsInUse(y, k);
      InUseIsLeftAlone(y, es[0], x, k);
      StepKeeps(y, es[0]);
      DetachBarrier(Step(y, es[0]), es[1..], k);
    }
  }

  // ----- data is never recreated -----

  ghost predicate LostForGood(y: System, k: string) {
    k in y.platform.volumes && y.platform.volumes[k].state != CREATING && k !in y.cloud
  }

  lemma NoDiskAppears(y: System, e: Event, k: string)
    requires Inv(y) && LostForGood(y, k)
    ensures LostForGood(Step(y, e), k)
  {
    hide Inv, CoreOk, NodesFit, VolumeTurned, AttachmentTurned, Evolves;
    StepEvolves(y, e);
    StillCreated(y.platform, Step(y, e).platform, k);
    match e {
      case VolumeTurn(j, f) => VolumeTurnMakesNone(y, j, f, k);
      case AttachmentTurn(x, f) => AttachmentTurnMakesNone(y, x, f, k);
      case _ =>
    }
  }

  lemma StillCreated(s: Platform, t: Platform, k: string)
    requires Evolves(s, t) && k in s.volumes && s.volumes[k].state != CREATING
    ensures k in t.volumes && t.volumes[k].state != CREATING
  {
  }

  lemma VolumeTurnMakesNone(y: System, j: string, f: Faults, k: string)
    requires Inv(y) && LostForGood(y, k)
    ensures k !in VolumeTurned(y, j, f).cloud
  {
    hide PlatformOk, NodesFit, Backed;
    if VolumeTurned(y, j, f) != y {
      StillCreated(y.platform, Current(y), k);
    }
  }

  lemma AttachmentTurnMakesNone(y: System, x: string, f: Faults, k: string)
    requires Inv(y) && LostForGood(y, k)
    ensures k !in AttachmentTurned(y, x, f).cloud
  {
    hide Inv, PlatformOk, AttachmentItem;
    if AttachmentTurned(y, x, f) != y {
      var a, s := Current(y).attachments[x], Current(y);
      AttachmentItemFrame(a, InstanceActive(y.cfg, a.link.instance), s.volumes[a.link.volume].lastError,
                          Look(y.cloud, a.link.volume), f);
    }
  }

  /** Once a volume is durably past creation, a disk that has gone missing is never silently made anew. */
  lemma {:induction false} NeverRecreated(y: System, es: seq<Event>, k: string)
    requires Inv(y) && LostForGood(y, k)
    ensures LostForGood(Run(y, es), k)
    decreases |es|
  {
    hide Inv, Step, LostForGood;
    if es != [] {
      NoDiskAppears(y, es[0], k);
      StepKeeps(y, es[0]);
      NeverRecreated(Step(y, es[0]), es[1..], k);
    }
  }

  // ----- the platform moves only forward -----

  lemma EvolvesItself(s: Platform)
    ensures Evolves(s, s)
  {
  }

  lemma StepEvolves(y: System, e: Event)
    requires Inv(y)
    ensures Evolves(y.platform, Step(y, e).platform)
  {
    hide PlatformOk, Evolves, Backed, NodesFit, Apply, NodeApply, VolumeTurned, AttachmentTurned, HostTurned, Answered,
        Begin, Saved, Fresh;
    EvolvesItself(y.platform);
    match e {
      case ApiCall(p, op, r, newID) =>
        if Fresh(y.platform, newID) { ApplyKeeps(y.cfg, p, op, r, newID, y.platform); }
      case NodeCalls(i, d) =>
        if i in y.nodes && Pending(y.nodes[i]).Some? { CallAdvances(y.cfg, i, Pending(y.nodes[i]).value, y.platform); }
      case _ =>
    }
  }

  lemma {:induction false} RunEvolves(y: System, es: seq<Event>)
    requires Inv(y)
    ensures Evolves(y.platform, Run(y, es).platform)
    decreases |es|
  {
    hide Inv, Step, Evolves;
    EvolvesItself(y.platform);
    if es != [] {
      StepEvolves(y, es[0]);
      StepKeeps(y, es[0]);
      RunEvolves(Step(y, es[0]), es[1..]);
      EvolvesTransitively(y.platform, Step(y, es[0]).platform, Run(y, es).platform);
    }
  }
}
