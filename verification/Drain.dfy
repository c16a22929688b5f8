/** The way out, from end to end: a detach is requested, the node unstages, one reconcile commits, and the next
    unpublish answers OK. */
module Drain {
  import opened Model
  import opened Calls
  import opened Invariants
  import opened Passes
  import opened Replay
  import opened Nodes
  import opened NodeInvariant
  import opened NodeCalls
  import opened Agents
  import opened Systems
  import opened SystemInvariant
  import opened Safety
  import opened Backing
  import opened Troubles
  import opened Convergence
  import opened Controllers
  import opened Memory
  import opened Progress
  import opened Turns

  // ----- from "nobody uses it" to "it is detached" -----

  function UnpublishOf(k: string, i: string): Request { BLANK.(volume := k, instance := i) }

  /** What a reconcile leaves of a volume whose one live attachment was draining and unused: none. */
  lemma DrainedIsGone(cfg: Config, w: View, x: string, drifted: set<string>)
    requires PlatformOk(cfg, w.platform) && x in w.platform.attachments && Live(w.platform.attachments[x])
    requires w.platform.attachments[x].deleteRequested && w.platform.attachments[x].uses == {}
    requires Calm(cfg, w, w.platform.attachments[x].link.volume, drifted)
    ensures !Busy(Reconciled(cfg, w, CALM).platform, w.platform.attachments[x].link.volume)
  {
    hide PlatformOk, Midway, Calm;
    var k, z := w.platform.attachments[x].link.volume, Reconciled(cfg, w, CALM);
    AttachmentsArrive(cfg, w, x, drifted);
    if Busy(z.platform, k) {
      LiveCameFrom(cfg, w, CALM, k);
      LiveIsLiveOn(cfg, w.platform, x);
    }
  }

  lemma OwnLatest(cfg: Config, s: Platform, k: string, i: string, p: Principal)
    requires PlatformOk(cfg, s) && k in s.volumes && Owned(p, s.volumes[k])
    ensures var x := Latest(s, k, i);
            x.Some? ==>
              && s.attachments[x.value].link.tenant == p.tenant
              && s.attachments[x.value].link.cluster == p.cluster
  {
    var x := Latest(s, k, i);
    if x.Some? { assert AttachmentOk(cfg, s, x.value, s.attachments[x.value]); }
  }

  /** A draining attachment nobody uses is gone after one committed faultless reconcile, then unpublish answers OK. */
  lemma DrainCompletes(y: System, es: seq<Event>, k: string, x: string, p: Principal, newID: string)
    requires Inv(y) && AllExplained(y) && y.txn.None? && forall n :: 0 <= n < |es| ==> Quiet(CALM, es[n])
    requires Step(Run(Step(y, Open), es), Commit).txn.None?
    requires IsLiveOn(y.platform, k, x) && y.platform.attachments[x].deleteRequested
        && y.platform.attachments[x].uses == {}
    requires k !in y.drifted && k in y.platform.volumes && p.role == "controller" && Owned(p, y.platform.volumes[k])
    ensures var z := Step(Run(Step(y, Open), es), Commit);
            && !Busy(z.platform, k)
            && forall i :: UnpublishReply(Apply(z.cfg, p, DeleteAttachment, UnpublishOf(k, i), newID,
                z.platform).reply).Answer?
  {
    hide Inv, AllExplained, Step, Run, Quiet, Apply, Reconciled, PlatformOk, Calm, Busy, UnpublishReply;
    var z := Step(Run(Step(y, Open), es), Commit);
    var w := View(y.platform, y.cloud);
    CommittedRun(y, es, CALM);
    ReachableIsCalm(y, k);
    assert PlatformOk(y.cfg, y.platform) by { SoundPlatform(y); }
    DrainedIsGone(y.cfg, w, x, y.drifted);
    StepKeeps(y, Open);
    RunKeeps(Step(y, Open), es);
    StepKeeps(Run(Step(y, Open), es), Commit);
    SoundPlatform(z);
    SpecKept(y, es, k);
    forall i ensures UnpublishReply(Apply(z.cfg, p, DeleteAttachment, UnpublishOf(k, i), newID,
        z.platform).reply).Answer? {
      UnpublishedMeansGone(z.cfg, p, k, i, newID, z.platform);
      OwnLatest(z.cfg, z.platform, k, i, p);
      NothingLive(z.platform, k, i);
    }
  }

  lemma SoundPlatform(y: System)
    requires Inv(y)
    ensures ConfigOk(y.cfg) && PlatformOk(y.cfg, y.platform)
  {
    hide PlatformOk, NodesFit, Backed, Shadows;
  }

  lemma NothingLive(s: Platform, k: string, i: string)
    requires !Busy(s, k)
    ensures NoneLive(s, k, i)
  {
  }

  lemma SpecKept(y: System, es: seq<Event>, k: string)
    requires Inv(y) && k in y.platform.volumes
    ensures var z := Step(Run(Step(y, Open), es), Commit);
            k in z.platform.volumes && z.platform.volumes[k].spec == y.platform.volumes[k].spec
  {
    hide Inv, Step, Run;
    var u := Step(y, Open);
    var m := Run(u, es);
    StepKeeps(y, Open);
    RunKeeps(u, es);
    StepEvolves(y, Open);
    RunEvolves(u, es);
    StepEvolves(m, Commit);
  }

  // ----- the node's part, as events -----

  function UnstageEvents(i: string, k: string, path: string): seq<Event> {
    [NodeStarts(i, UnstageVolume(k, path, true)), NodeHosts(i, Fine), NodeCalls(i, Fine), NodeSaves(i, Fine)]
  }

  /** The four events of an unstage do what the unstage does. */
  lemma UnstagesAs(y: System, i: string, k: string, path: string)
    requires i in y.nodes && y.nodes[i].pc.Idle? && y.txn.None?
    requires BeginTurn(Exchange(y.platform, y.nodes[i]), UnstageVolume(k, path, true)).node.pc == Unmounting(k)
    ensures Run(y, UnstageEvents(i, k, path))
        == Placed(y, i, UnstageRun(y.cfg, i, Exchange(y.platform, y.nodes[i]), k, path))
  {
    hide Step, BeginTurn, HostTurn, CallTurn, SaveTurn;
    var es := UnstageEvents(i, k, path);
    var y1 := Step(y, es[0]);
    StartsAs(y, i, UnstageVolume(k, path, true));
    var y2 := Step(y1, es[1]);
    HostsAs(y1, i);
    var y3 := Step(y2, es[2]);
    CallsAs(y2, i);
    var y4 := Step(y3, es[3]);
    SavesAs(y3, i);
    assert es[1..][1..] == es[2..] && es[2..][1..] == es[3..] && es[3..][1..] == [];
    assert Run(y4, []) == y4 && Run(y3, es[3..]) == y4 && Run(y2, es[2..]) == y4 && Run(y1, es[1..]) == y4;
  }

  /** None of them is an event that forgets. */
  lemma UnstageForgetsNothing(y: System, i: string, k: string, path: string)
    ensures ForgetsNothing(y, UnstageEvents(i, k, path))
  {
    hide Step, NodeApply, RecordsFirst;
    var es := UnstageEvents(i, k, path);
    var y1 := Step(y, es[0]);
    var y2 := Step(y1, es[1]);
    assert es[1..][1..] == es[2..] && es[2..][1..] == es[3..] && es[3..][1..] == [];
    assert ForgetsNothing(Step(y2, es[2]), es[3..]) && ForgetsNothing(y2, es[2..]) && ForgetsNothing(y1, es[1..]);
  }

  // ----- all of it -----

  /** The node still journals the volume, has no target of it, and is one the platform would answer. */
  ghost predicate Drainable(y: System, i: string, k: string) {
    && i in y.nodes && y.nodes[i].pc.Idle? && k in y.nodes[i].journal && y.nodes[i].journal[k].targets == map[]
    && ValidID(y.nodes[i].journal[k].proof.use) && InstanceAllowed(y.cfg, IdentityOf(y.cfg, i), i)
  }

  lemma NodeUnstages(y: System, i: string, k: string)
    requires Inv(y) && Remembered(y) && y.txn.None? && Drainable(y, i, k)
    ensures var u := Run(y, UnstageEvents(i, k, y.nodes[i].journal[k].path));
            && Inv(u) && NoUseLeft(u.platform, i, k) && i in u.nodes && u.nodes[i].pc == Idle(OK)
            && u == y.(platform := u.platform, nodes := u.nodes)
            && u.platform == NodeApply(y.cfg, i, (ReleaseUse, y.nodes[i].journal[k].proof), y.platform).state
  {
    hide PlatformOk, NodeOk, Backed, Shadows, Remembered, Run, UnstageRun, NodeApply, DevicesOk, SizesOk;
    var n, path := y.nodes[i], y.nodes[i].journal[k].path;
    assert NodeFits(y, i, n);
    EntrySound(i, y.platform, n, k);
    var x := Exchange(y.platform, n);
    UnstagingSucceeds(y.cfg, i, x, k);
    UnstageAdmitted(n, k, path);
    UnstagesAs(y, i, k, path);
    UnstageForgetsNothing(y, i, k, path);
    RunKeeps(y, UnstageEvents(i, k, path));
    RunRemembers(y, UnstageEvents(i, k, path));
    var u := Run(y, UnstageEvents(i, k, path));
    UnjournalledIsUnused(u, i, k);
  }

  lemma UnstageAdmitted(n: Node, k: string, path: string)
    requires k != "" && k in n.journal && n.journal[k].path == path && n.journal[k].targets == map[]
    ensures Begin(n, UnstageVolume(k, path, true)).pc == Unmounting(k)
  {
  }

  /** The detach request marks exactly this attachment as draining, and no use of it changes. */
  lemma RequestMarks(cfg: Config, s: Platform, k: string, i: string, x: string, p: Principal, newID: string)
    requires PlatformOk(cfg, s) && p.role == "controller" && i != ""
    requires IsLiveOn(s, k, x) && s.attachments[x].link.instance == i && k in s.volumes && Owned(p, s.volumes[k])
    ensures var t := Apply(cfg, p, DeleteAttachment, UnpublishOf(k, i), newID, s).state;
            t == WithAttachment(s, x, Draining(s.attachments[x]))
  {
    EmptyUnused(cfg, s);
    OwnLatest(cfg, s, k, i, p);
    var l := Latest(s, k, i);
    if l.None? { NothingLatest(s, k, i); } else { LatestIsLive(cfg, s, k, i, l.value, x); }
  }

  lemma ReleaseKeepsDraining(cfg: Config, i: string, p: Request, s: Platform, x: string, k: string)
    requires IsLiveOn(s, k, x) && s.attachments[x].deleteRequested
    ensures var t := NodeApply(cfg, i, (ReleaseUse, p), s).state;
            && t.volumes == s.volumes && IsLiveOn(t, k, x) && t.attachments[x].deleteRequested
            && t.attachments[x].link == s.attachments[x].link
  {
    hide ProofMatches, ValidID;
  }

  /** The state after the request and the unstage: the attachment is draining and nobody uses it. */
  lemma Drained(y: System, i: string, k: string, x: string, p: Principal, newID: string)
    requires Inv(y) && Remembered(y) && AllExplained(y) && y.txn.None? && Drainable(y, i, k) && i != ""
    requires IsLiveOn(y.platform, k, x) && y.platform.attachments[x].link.instance == i
    requires k in y.platform.volumes && p.role == "controller" && Owned(p, y.platform.volumes[k])
        && Fresh(y.platform, newID)
    ensures var u := Run(Step(y, ApiCall(p, DeleteAttachment, UnpublishOf(k, i), newID)),
        UnstageEvents(i, k, y.nodes[i].journal[k].path));
            && Inv(u) && AllExplained(u) && u.txn.None? && u.drifted == y.drifted
            && IsLiveOn(u.platform, k, x) && u.platform.attachments[x].deleteRequested
                && u.platform.attachments[x].uses == {}
            && k in u.platform.volumes && Owned(p, u.platform.volumes[k])
  {
    hide Inv, Remembered, AllExplained, Run, NodeApply, Apply, Fresh, NoUseLeft;
    var e := ApiCall(p, DeleteAttachment, UnpublishOf(k, i), newID);
    var z := Step(y, e);
    SoundPlatform(y);
    RequestMarks(y.cfg, y.platform, k, i, x, p, newID);
    StepKeeps(y, e);
    ForgottenIff(y, e);
    StepExplained(y, e);
    NodeUnstages(z, i, k);
    ReleaseKeepsDraining(y.cfg, i, y.nodes[i].journal[k].proof, z.platform, x, k);
    RunExplained(z, UnstageEvents(i, k, y.nodes[i].journal[k].path));
    UsesGone(Run(z, UnstageEvents(i, k, y.nodes[i].journal[k].path)).platform, i, k, x);
  }

  lemma UsesGone(s: Platform, i: string, k: string, x: string)
    requires NoUseLeft(s, i, k) && x in s.attachments && s.attachments[x].link.volume == k
        && s.attachments[x].link.instance == i
    ensures s.attachments[x].uses == {}
  {
  }

  /** After any run in which no use was forgotten: ask for the detach, let the node unstage, let one reconcile without
      faults commit, with nodes busy in between - and unpublish answers OK for that node and for all of them. */
  lemma WholeDrain(y0: System, before: seq<Event>, es: seq<Event>, i: string, k: string, x: string, p: Principal,
                   newID: string)
    requires Init(y0) && ForgetsNothing(y0, before) && i != ""
    requires var y := Run(y0, before);
             && y.txn.None? && Drainable(y, i, k) && k !in y.drifted
             && IsLiveOn(y.platform, k, x) && y.platform.attachments[x].link.instance == i
             && k in y.platform.volumes && p.role == "controller" && Owned(p, y.platform.volumes[k])
                 && Fresh(y.platform, newID)
    requires forall n :: 0 <= n < |es| ==> Quiet(CALM, es[n])
    requires var y := Run(y0, before);
             var u := Run(Step(y, ApiCall(p, DeleteAttachment, UnpublishOf(k, i), newID)),
                          UnstageEvents(i, k, y.nodes[i].journal[k].path));
             Step(Run(Step(u, Open), es), Commit).txn.None?
    ensures var y := Run(y0, before);
            var u := Run(Step(y, ApiCall(p, DeleteAttachment, UnpublishOf(k, i), newID)),
                         UnstageEvents(i, k, y.nodes[i].journal[k].path));
            var z := Step(Run(Step(u, Open), es), Commit);
            && !Busy(z.platform, k)
            && forall j :: UnpublishReply(Apply(z.cfg, p, DeleteAttachment, UnpublishOf(k, j), newID,
                z.platform).reply).Answer?
  {
    hide Init, Inv, Remembered, AllExplained, Run, Step, NodeApply, Apply, Fresh, Quiet, Busy, ForgetsNothing,
        UnpublishReply;
    var y := Run(y0, before);
    InitHolds(y0);
    InitRemembers(y0);
    RunKeeps(y0, before);
    RunRemembers(y0, before);
    ErrorsAreExplained(y0, before);
    Drained(y, i, k, x, p, newID);
    var u := Run(Step(y, ApiCall(p, DeleteAttachment, UnpublishOf(k, i), newID)),
                 UnstageEvents(i, k, y.nodes[i].journal[k].path));
    DrainCompletes(u, es, k, x, p, newID);
  }
}
