/** Which RPCs a node takes up, and what its callers must show; and where an answer from the platform stops it. */
module Admission {
  import opened Model
  import opened Calls
  import opened Invariants
  import opened Wire
  import opened Nodes
  import opened NodeInvariant
  import opened NodeCalls
  import opened Backing
  import opened Systems
  import opened SystemInvariant
  import opened Safety
  import opened Forever
  import opened Acceptance
  import opened EndToEnd

  // ----- what each RPC needs -----

  /** The caller shows the attachment, the generation and the capability of the node's own record of the volume. */
  predicate ShowsRecord(e: Stage, m: Mode, q: Request) {
    && e.proof.attachment == q.attachment && e.proof.generation == q.generation
    && e.volume.spec.mode == m.mode && e.volume.spec.fsType == m.fsType
  }

  /** Nothing of another volume is at the path. */
  predicate Unclaimed(j: Journal, volume: string, path: string) {
    forall k :: k in j && k != volume ==> j[k].path != path && path !in j[k].targets
  }

  predicate MayStage(n: Node, r: StageRequest) {
    var m, q := ModeOf(r.capability), ProofOf(r.volume, r.context);
    && r.volume != "" && r.pathOk && m.Some? && q.Some?
    && (r.volume in n.journal ==>
         n.journal[r.volume].path == r.path && ShowsRecord(n.journal[r.volume], m.value, q.value))
    && Unclaimed(n.journal, r.volume, r.path)
  }

  predicate MayPublish(n: Node, r: PublishRequest) {
    var m, q := ModeOf(r.capability), ProofOf(r.volume, r.context);
    && r.volume != "" && r.targetOk && r.stagingOk && ValidID(r.podUID) && m.Some? && q.Some?
    && r.volume in n.journal
    && var e := n.journal[r.volume];
       && e.ready && e.path == r.staging && ShowsRecord(e, m.value, q.value)
       && r.target != e.path && Unclaimed(n.journal, r.volume, r.target)
       && (r.target in e.targets ==> e.targets[r.target] == Target(r.readOnly, r.podUID))
  }

  /** A stage is taken up if and only if it may be; what is asked of the platform is then the caller's own proof,
      under the use of this volume, path and generation. */
  lemma StageTakenUpIff(i: string, s: Platform, n: Node, r: StageRequest)
    requires NodeOk(i, s, n)
    ensures var pc := Begin(n, StageVolume(r)).pc;
            && (!pc.Idle? <==> MayStage(n, r)) && pc != Idle(OK)
            && (!pc.Idle? ==>
                 var m, q := ModeOf(r.capability).value, ProofOf(r.volume, r.context).value;
                 pc == Acquiring(
                   BLANK.(volume := r.volume, attachment := q.attachment, generation := q.generation,
                          use := n.hash(r.volume, r.path, q.generation), mode := m.mode, fsType := m.fsType), r.path))
  {
    EntriesSound(i, s, n);
    ProofIsPlain(r.volume, r.context);
    hide NodeOk, EntryOk, ModeOf, ProofOf;
    forall k | k in n.journal && k != r.volume
      ensures r.path in n.journal[k].targets ==> n.journal[k].targets[r.path].podUID != ""
    {
      TargetsNamed(n, k);
    }
  }

  ghost predicate EntriesNamed(n: Node) {
    forall k :: k in n.journal ==> NamedTargets(n.journal[k]) && n.journal[k].path !in n.journal[k].targets
  }

  predicate NamedTargets(e: Stage) { forall t :: t in e.targets ==> e.targets[t].podUID != "" }

  lemma EntriesSound(i: string, s: Platform, n: Node)
    requires NodeOk(i, s, n)
    ensures EntriesNamed(n)
  {
    hide AllApart, MountsOk, PcOk;
    forall k | k in n.journal ensures NamedTargets(n.journal[k]) && n.journal[k].path !in n.journal[k].targets {
      assert EntryOk(n.hash, i, s, k, n.journal[k]);
    }
  }

  lemma TargetsNamed(n: Node, k: string)
    requires EntriesNamed(n) && k in n.journal
    ensures NamedTargets(n.journal[k])
  {
  }

  lemma ProofIsPlain(volume: string, context: map<string, string>)
    ensures var q := ProofOf(volume, context);
            q.Some? ==> q.value == BLANK.(volume := volume, attachment := q.value.attachment,
                generation := q.value.generation)
  {
  }

  /** A publish is taken up if and only if it may be. */
  lemma PublishTakenUpIff(i: string, s: Platform, n: Node, r: PublishRequest)
    requires NodeOk(i, s, n)
    ensures var pc := Begin(n, PublishVolume(r)).pc;
            && (!pc.Idle? <==> MayPublish(n, r)) && pc != Idle(OK)
            && (!pc.Idle? ==> pc == Permitting(r.volume, r.target, Target(r.readOnly, r.podUID)))
  {
    hide NodeOk, ModeOf, ProofOf, ValidID;
  }

  /** An unpublish does something if and only if the target is on record; an unstage, if and only if the volume is, at
      that path and with no target left. What is not on record is already done. */
  lemma UndoneIff(n: Node, volume: string, path: string, pathOk: bool)
    ensures var pc := Begin(n, UnpublishVolume(volume, path, pathOk)).pc;
            var known := volume in n.journal && path in n.journal[volume].targets;
            && (pc == Unbinding(volume, path) <==> volume != "" && pathOk && known)
            && (pc == Idle(OK) <==> volume != "" && pathOk && !known)
            && (pc.Idle? || pc == Unbinding(volume, path))
    ensures var pc := Begin(n, UnstageVolume(volume, path, pathOk)).pc;
            && (pc == Unmounting(volume) <==>
                 && volume != "" && pathOk && volume in n.journal && n.journal[volume].path == path
                 && n.journal[volume].targets == map[])
            && (pc == Idle(OK) <==> volume != "" && pathOk && volume !in n.journal)
            && (pc.Idle? || pc == Unmounting(volume))
  {
  }

  /** An expand is taken up if and only if it asks for something and names a path where the node has the volume,
      ready. */
  lemma ExpandTakenUpIff(n: Node, volume: string, path: string, pathOk: bool, required: int, limit: int)
    ensures var pc := Begin(n, ExpandVolume(volume, path, pathOk, required, limit)).pc;
            && (pc == Checking(volume, required, limit) <==>
                 && required > 0 && volume != "" && pathOk && volume in n.journal && n.journal[volume].ready
                 && (path == n.journal[volume].path || path in n.journal[volume].targets))
            && (pc.Idle? || pc == Checking(volume, required, limit)) && pc != Idle(OK)
  {
  }

  // ----- publishing with somebody else's proof -----

  /** A publish that a node of a reachable state takes up was asked for with the proof the volume is staged with, and
      with the volume's own mode and file system. */
  lemma PublishShowsProof(y: System, i: string, r: PublishRequest)
    requires Inv(y) && i in y.nodes && y.nodes[i].pc.Idle?
        && !Step(y, NodeStarts(i, PublishVolume(r))).nodes[i].pc.Idle?
    ensures var q, m, n := ProofOf(r.volume, r.context), ModeOf(r.capability), y.nodes[i];
            && q.Some? && r.volume in n.journal && r.volume in y.platform.volumes
            && q.value.attachment == n.journal[r.volume].proof.attachment
            && q.value.generation == n.journal[r.volume].proof.generation
            && m == Some(Mode(y.platform.volumes[r.volume].spec.mode, y.platform.volumes[r.volume].spec.fsType))
  {
    hide CoreOk, NodeOk, Begin, ModeOf, ProofOf;
    assert NodeFits(y, i, y.nodes[i]);
    PublishTakenUpIff(i, y.platform, y.nodes[i], r);
    RecordedSpec(i, y.platform, y.nodes[i], r.volume);
  }

  lemma RecordedSpec(i: string, s: Platform, n: Node, k: string)
    requires NodeOk(i, s, n) && k in n.journal
    ensures k in s.volumes && n.journal[k].volume.spec == s.volumes[k].spec
  {
    hide AllApart, MountsOk, PcOk;
    assert EntryOk(n.hash, i, s, k, n.journal[k]);
  }

  /** The node has refused, or is about to ask about an attachment that is dead. */
  ghost predicate Stale(y: System, i: string, x: string) {
    && i in y.nodes && x in y.platform.attachments && !Live(y.platform.attachments[x])
    && match y.nodes[i].pc
       case Idle(c) => c != OK
       case Permitting(k, t, w) => k in y.nodes[i].journal && y.nodes[i].journal[k].proof.attachment == x
       case _ => false
  }

  predicate StartsOn(e: Event, i: string) { e.NodeStarts? && e.node == i }

  lemma DeadStays(y: System, e: Event, x: string)
    requires Inv(y) && x in y.platform.attachments && !Live(y.platform.attachments[x])
    ensures x in Step(y, e).platform.attachments && !Live(Step(y, e).platform.attachments[x])
  {
    hide Inv, Step;
    StepEvolves(y, e);
  }

  lemma DeadIsRefused(y: System, i: string, x: string, f: Fault)
    requires Inv(y) && Stale(y, i, x) && y.nodes[i].pc.Permitting?
    ensures i in Called(y, i, f).nodes
    ensures var n := Called(y, i, f).nodes[i]; n == y.nodes[i] || (n.pc.Idle? && n.pc.code != OK)
  {
    hide PlatformOk, NodesFit, Backed, Shadows, NodeApply, Answered;
    var q := Pending(y.nodes[i]).value;
    DetachedRefuses(y.cfg, y.platform, x, i, q);
    RefusalsAreNotOk(y.cfg, i, q, y.platform);
  }

  lemma StaleGetsNowhere(y: System, e: Event, i: string, x: string)
    requires Inv(y) && Stale(y, i, x) && !StartsOn(e, i)
    ensures i in Step(y, e).nodes
    ensures var n := Step(y, e).nodes[i]; n == y.nodes[i] || (n.pc.Idle? && n.pc.code != OK)
  {
    hide Inv, Stale, Called, HostTurned, Begin, Apply, VolumeTurned, AttachmentTurned, Draft, AfterSave;
    StalePc(y, i, x);
    if !MovesNode(e, i) {
      OthersStayPut(y, e, i);
    } else {
      match e {
        case NodeCalls(_, f) =>
          if y.nodes[i].pc.Permitting? { DeadIsRefused(y, i, x, f); } else { IdleCallsNothing(y, i, f); }
        case NodeHosts(_, f) => NoHostEffect(y, i, f);
        case _ =>
      }
    }
  }

  lemma StalePc(y: System, i: string, x: string)
    requires Stale(y, i, x)
    ensures i in y.nodes && (y.nodes[i].pc.Permitting? || (y.nodes[i].pc.Idle? && y.nodes[i].pc.code != OK))
  {
  }

  lemma StaleStays(y: System, e: Event, i: string, x: string)
    requires Inv(y) && Stale(y, i, x) && !StartsOn(e, i)
    ensures Stale(Step(y, e), i, x)
  {
    hide Inv, Step;
    DeadStays(y, e, x);
    StaleGetsNowhere(y, e, i, x);
  }

  lemma IdleCallsNothing(y: System, i: string, f: Fault)
    requires i in y.nodes && y.nodes[i].pc.Idle?
    ensures i in Called(y, i, f).nodes && Called(y, i, f).nodes[i] == y.nodes[i]
  {
  }

  lemma NoHostEffect(y: System, i: string, f: Fault)
    requires i in y.nodes && (y.nodes[i].pc.Idle? || y.nodes[i].pc.Permitting?)
    ensures HostTurned(y, i, f).nodes[i] == y.nodes[i]
  {
  }

  ghost predicate NothingStarts(es: seq<Event>, i: string) { forall n :: 0 <= n < |es| ==> !StartsOn(es[n], i) }

  lemma {:induction false} StaleOverRun(y: System, es: seq<Event>, i: string, x: string)
    requires Inv(y) && Stale(y, i, x) && NothingStarts(es, i)
    ensures Stale(Run(y, es), i, x)
    decreases |es|
  {
    hide Inv, Step, Stale, StartsOn;
    if es != [] {
      StaleStays(y, es[0], i, x);
      StepKeeps(y, es[0]);
      StaleOverRun(Step(y, es[0]), es[1..], i, x);
    }
  }

  /** Once an attachment is detached, no later publish that carries its context is ever answered OK, on any node,
      however long it takes and whatever happens meanwhile. */
  lemma StalePublishFails(y: System, es: seq<Event>, i: string, r: PublishRequest, x: string, later: seq<Event>)
    requires Inv(y) && x in y.platform.attachments && !Live(y.platform.attachments[x])
    requires ProofOf(r.volume, r.context).Some? && ProofOf(r.volume, r.context).value.attachment == x
    requires i in Run(y, es).nodes && Run(y, es).nodes[i].pc.Idle? && NothingStarts(later, i)
    ensures var z := Run(Step(Run(y, es), NodeStarts(i, PublishVolume(r))), later);
            i in z.nodes && z.nodes[i].pc != Idle(OK)
  {
    hide Inv, Step, Run, ProofOf, NothingStarts;
    var u := Run(y, es);
    RunKeeps(y, es);
    RunEvolves(y, es);
    assert u.platform.attachments[x] == y.platform.attachments[x];
    StartsStale(u, i, r, x);
    StepKeeps(u, NodeStarts(i, PublishVolume(r)));
    StaleOverRun(Step(u, NodeStarts(i, PublishVolume(r))), later, i, x);
  }

  lemma StartsStale(u: System, i: string, r: PublishRequest, x: string)
    requires Inv(u) && i in u.nodes && u.nodes[i].pc.Idle? && x in u.platform.attachments
        && !Live(u.platform.attachments[x])
    requires ProofOf(r.volume, r.context).Some? && ProofOf(r.volume, r.context).value.attachment == x
    ensures Stale(Step(u, NodeStarts(i, PublishVolume(r))), i, x)
  {
    hide CoreOk, NodeOk, Begin, ModeOf, ProofOf;
    assert NodeFits(u, i, u.nodes[i]);
    PublishTakenUpIff(i, u.platform, u.nodes[i], r);
  }

  // ----- errors on record stop a node -----

  predicate AsksForUse(pc: PC) { pc.Acquiring? || pc.Permitting? || pc.Checking? || pc.Marking? }

  /** Neither the attachment that the proof names, nor its volume, carries an error or is on its way out. */
  ghost predicate FreeOfTrouble(s: Platform, p: Request) {
    && p.attachment in s.attachments && p.volume in s.volumes
    && s.attachments[p.attachment].state == ATTACHED && s.attachments[p.attachment].lastError == Clear
    && !s.attachments[p.attachment].deleteRequested
    && s.volumes[p.volume].lastError == Clear && !s.volumes[p.volume].deleteRequested
  }

  lemma AcceptedIsFree(cfg: Config, i: string, q: (Op, Request), s: Platform)
    requires ConfigOk(cfg) && PlatformOk(cfg, s) && IsUseOp(q.0) && q.0 != ReleaseUse
    requires NodeApply(cfg, i, q, s).reply.Done?
    ensures FreeOfTrouble(s, q.1)
  {
    hide PlatformOk, ValidID;
    UseAcceptedIff(cfg, IdentityOf(cfg, i), q.0, q.1, s);
    UseFacts(cfg, s, q.1.attachment);
    hide NodeApply;
  }

  /** A node waiting to use a volume gets no further by an answer given while an error is on record: it stops, not OK,
      and the platform is as it was. */
  lemma TroubleStopsTheNode(y: System, i: string, f: Fault)
    requires Inv(y) && i in y.nodes && AsksForUse(y.nodes[i].pc) && Pending(y.nodes[i]).Some?
    requires !FreeOfTrouble(y.platform, Pending(y.nodes[i]).value.1)
    ensures var z := Step(y, NodeCalls(i, f));
            && z.platform == y.platform && i in z.nodes
            && (z.nodes[i] == y.nodes[i]
                || (z.nodes[i].pc.Idle? && z.nodes[i].pc.code != OK && z.nodes[i].journal == y.nodes[i].journal))
  {
    hide PlatformOk, NodesFit, Backed, Shadows, NodeApply, Answered, FreeOfTrouble;
    var q := Pending(y.nodes[i]).value;
    if NodeApply(y.cfg, i, q, y.platform).reply.Done? { AcceptedIsFree(y.cfg, i, q, y.platform); }
    RefusalsAreNotOk(y.cfg, i, q, y.platform);
    RefusalLeaves(y.cfg, i, q, y.platform);
  }

  lemma RefusalLeaves(cfg: Config, i: string, q: (Op, Request), s: Platform)
    ensures NodeApply(cfg, i, q, s).reply.Rejected? ==> NodeApply(cfg, i, q, s).state == s
  {
    hide ProofMatches, ValidID, Healthy;
  }
}
