/** A caller who is told to come back later and does: after one committed reconcile whose provider calls worked, the
    same request is answered OK. */
module Retry {
  import opened Model
  import opened Calls
  import opened Invariants
  import opened Passes
  import opened Wire
  import opened Topologies
  import opened Backing
  import opened Systems
  import opened SystemInvariant
  import opened Convergence
  import opened Controllers
  import opened Acceptance
  import opened Outcome

  /** The system after a call that was granted. */
  function Granting(p: Principal, op: Op, r: Request, newID: string): Event { ApiCall(p, op, r, newID) }

  lemma CommitKeepsInv(y: System, es: seq<Event>)
    requires Inv(y)
    ensures Inv(AfterCommit(y, es)) && ConfigOk(AfterCommit(y, es).cfg)
    ensures PlatformOk(AfterCommit(y, es).cfg, AfterCommit(y, es).platform)
  {
    hide Inv, Step, Run, PlatformOk, ConfigOk;
    StepKeeps(y, Open);
    RunKeeps(Step(y, Open), es);
    StepKeeps(Run(Step(y, Open), es), Commit);
    PlatformIsOk(AfterCommit(y, es));
  }

  lemma CommitKeepsCfg(y: System, es: seq<Event>, orc: Oracle)
    requires Commits(y, es, orc)
    ensures AfterCommit(y, es).cfg == y.cfg
  {
    hide Step, Run, Quiet;
    OpenedKeepsCfg(y);
    QuietCfg(Step(y, Open), es, orc);
    CommittingKeepsCfg(Run(Step(y, Open), es));
  }

  lemma CommittingKeepsCfg(y: System)
    ensures Step(y, Commit).cfg == y.cfg
  {
  }

  // ----- volumes -----

  /** A volume with a disk, or about to get its first, ends available at its goal. */
  lemma BecomesAvailable(y: System, es: seq<Event>, k: string)
    requires Inv(y) && Commits(y, es, CALM) && k in y.platform.volumes && !y.platform.volumes[k].deleteRequested
    requires k in y.cloud || y.platform.volumes[k].state == CREATING
    ensures var z, v := AfterCommit(y, es), y.platform.volumes[k];
            && k in z.platform.volumes
            && z.platform.volumes[k]
                == v.(state := AVAILABLE, size := v.desired, deviceKey := z.platform.volumes[k].deviceKey,
                                           lastError := Clear)
  {
    hide Inv, Step, Run;
    VolumeOutcome(y, es, CALM, k);
    OnlyDeletedIsDeleted(y, k);
  }

  /** A create that is granted is, after the reconcile, answered: the volume has the goal's size and the place asked
      for. */
  lemma CreateThenOk(y: System, p: Principal, r: Request, newID: string, es: seq<Event>, k: string, otherID: string)
    requires Inv(y) && p.role == "controller" && y.txn.None? && Fresh(y.platform, newID)
    requires MayCreate(y.cfg, p, r, y.platform)
    requires var u := Step(y, Granting(p, CreateVolume, r, newID));
             && Commits(u, es, CALM) && k in u.platform.volumes && SameName(p, r, u.platform.volumes[k])
             && (k in u.cloud || u.platform.volumes[k].state == CREATING)
    ensures var u := Step(y, Granting(p, CreateVolume, r, newID));
            var z := AfterCommit(u, es);
            && r.size <= u.platform.volumes[k].desired
            && CreateReply(Apply(z.cfg, p, CreateVolume, r, otherID, z.platform).reply)
            == Answer(CreatedVolume(k, u.platform.volumes[k].desired, Place(r.region, r.zone)))
  {
    hide Inv, Step, Run, Apply, Commits, MayCreate;
    var e := Granting(p, CreateVolume, r, newID);
    var u := Step(y, e);
    var z := AfterCommit(u, es);
    StepKeeps(y, e);
    CreatedSpec(y, p, r, newID, k);
    GoalAtLeast(u, k);
    BecomesAvailable(u, es, k);
    CommitKeepsInv(u, es);
    CommitKeepsCfg(u, es, CALM);
    StillMayCreate(y, p, r, newID, z, k);
    ShowsThatOne(z.cfg, p, r, otherID, z.platform, k);
    KeyIsId(z, k);
  }

  lemma KeyIsId(y: System, k: string)
    requires Inv(y) && k in y.platform.volumes
    ensures y.platform.volumes[k].id == k
  {
    hide AttachmentsOk, GenerationsDistinct, NamesUnique, NodesFit, Backed, Shadows;
    assert VolumeOk(k, y.platform.volumes[k]);
  }

  lemma GoalAtLeast(y: System, k: string)
    requires Inv(y) && k in y.platform.volumes
    ensures y.platform.volumes[k].spec.initialSize <= y.platform.volumes[k].desired
  {
    hide AttachmentsOk, GenerationsDistinct, NamesUnique, NodesFit, Backed, Shadows;
    assert VolumeOk(k, y.platform.volumes[k]);
  }

  /** What a granted create leaves under that name is what was asked for. */
  lemma CreatedSpec(y: System, p: Principal, r: Request, newID: string, k: string)
    requires Inv(y) && p.role == "controller" && y.txn.None? && Fresh(y.platform, newID)
        && MayCreate(y.cfg, p, r, y.platform)
    requires var u := Step(y, Granting(p, CreateVolume, r, newID));
             k in u.platform.volumes && SameName(p, r, u.platform.volumes[k])
    ensures var u := Step(y, Granting(p, CreateVolume, r, newID));
            && u.platform.volumes[k].spec == Asked(p, r) && !u.platform.volumes[k].deleteRequested
            && u.cfg == y.cfg
  {
    hide PlatformOk, NodesFit, Backed, Shadows, Apply, Lawful;
    CreateEffect(y.cfg, p, r, newID, y.platform);
    NameFacts(y.cfg, p, r, y.platform);
  }

  lemma StillMayCreate(y: System, p: Principal, r: Request, newID: string, z: System, k: string)
    requires MayCreate(y.cfg, p, r, y.platform) && z.cfg.zones == y.cfg.zones && Inv(z)
    requires k in z.platform.volumes && z.platform.volumes[k].spec == Asked(p, r)
        && !z.platform.volumes[k].deleteRequested
    ensures MayCreate(z.cfg, p, r, z.platform)
  {
    hide PlatformOk, NodesFit, Backed, Shadows, ValidID;
    NameFacts(z.cfg, p, r, z.platform);
  }

  /** An expand that is granted is, after the reconcile, answered with the size asked for. */
  lemma ExpandThenOk(y: System, p: Principal, k: string, size: int, newID: string, es: seq<Event>, otherID: string)
    requires Inv(y) && p.role == "controller" && y.txn.None? && Fresh(y.platform, newID)
    requires MayResize(p, k, size, y.platform) && k in y.cloud
    requires Commits(Step(y, Granting(p, ResizeVolume, BLANK.(id := k, size := size), newID)), es, CALM)
    ensures var r := BLANK.(id := k, size := size);
            var z := AfterCommit(Step(y, Granting(p, ResizeVolume, r, newID)), es);
            && k in z.platform.volumes
            && ExpandReply(Apply(z.cfg, p, ResizeVolume, r, otherID, z.platform).reply, size)
            == Answer(ExpandedVolume(size, y.platform.volumes[k].spec.mode == "mount"))
  {
    hide Inv, Step, Run, Apply, Commits;
    var r := BLANK.(id := k, size := size);
    var e := Granting(p, ResizeVolume, r, newID);
    var u := Step(y, e);
    StepKeeps(y, e);
    ResizedNow(y, p, k, size, newID);
    BecomesAvailable(u, es, k);
    CommitKeepsInv(u, es);
    var z := AfterCommit(u, es);
    ResizeEffect(z.cfg, p, k, size, otherID, z.platform);
  }

  lemma ResizedNow(y: System, p: Principal, k: string, size: int, newID: string)
    requires Inv(y) && p.role == "controller" && y.txn.None? && Fresh(y.platform, newID)
        && MayResize(p, k, size, y.platform)
    ensures var u, v := Step(y, Granting(p, ResizeVolume, BLANK.(id := k, size := size), newID)), y.platform.volumes[k];
            && k in u.platform.volumes && u.cloud == y.cloud && u.txn.None?
            && u.platform.volumes[k] == v.(desired := size, state := u.platform.volumes[k].state)
            && !v.deleteRequested
  {
    hide AttachmentsOk, GenerationsDistinct, NamesUnique, NodesFit, Backed, Shadows, Apply, Fresh;
    ResizeEffect(y.cfg, p, k, size, newID, y.platform);
    assert VolumeOk(k, y.platform.volumes[k]);
  }

  /** A delete that is granted is, after the reconcile, answered. */
  lemma DeleteThenOk(y: System, p: Principal, k: string, newID: string, es: seq<Event>, otherID: string)
    requires Inv(y) && p.role == "controller" && y.txn.None? && Fresh(y.platform, newID)
    requires MayDelete(p, k, y.platform) && k in y.platform.volumes
    requires Commits(Step(y, Granting(p, DeleteVolume, BLANK.(id := k), newID)), es, CALM)
    ensures var z := AfterCommit(Step(y, Granting(p, DeleteVolume, BLANK.(id := k), newID)), es);
            && DeleteReply(Apply(z.cfg, p, DeleteVolume, BLANK.(id := k), otherID, z.platform).reply) == Answer(())
            && k !in z.cloud
  {
    hide Inv, Step, Run, Apply, Commits;
    var e := Granting(p, DeleteVolume, BLANK.(id := k), newID);
    var u := Step(y, e);
    StepKeeps(y, e);
    DoomedNow(y, p, k, newID);
    VolumeOutcome(u, es, CALM, k);
    CommitKeepsInv(u, es);
    var z := AfterCommit(u, es);
    TombstoneIsFree(z, k);
    DeleteEffect(z.cfg, p, k, otherID, z.platform);
  }

  lemma DoomedNow(y: System, p: Principal, k: string, newID: string)
    requires Inv(y) && p.role == "controller" && y.txn.None? && Fresh(y.platform, newID)
    requires MayDelete(p, k, y.platform) && k in y.platform.volumes
    ensures var u, v := Step(y, Granting(p, DeleteVolume, BLANK.(id := k), newID)), y.platform.volumes[k];
            && k in u.platform.volumes && u.platform.volumes[k].deleteRequested && u.platform.volumes[k].spec == v.spec
  {
    hide PlatformOk, NodesFit, Backed, Shadows, Apply, Fresh;
    DeleteEffect(y.cfg, p, k, newID, y.platform);
  }

  lemma TombstoneIsFree(y: System, k: string)
    requires Inv(y) && k in y.platform.volumes && y.platform.volumes[k].state == DELETED
    ensures forall x :: !IsLiveOn(y.platform, k, x)
  {
    hide NodesFit, Backed, Shadows, VolumesOk, GenerationsDistinct, NamesUnique;
    forall x | x in y.platform.attachments && y.platform.attachments[x].link.volume == k
      ensures !Live(y.platform.attachments[x])
    {
      assert AttachmentOk(y.cfg, y.platform, x, y.platform.attachments[x]);
    }
  }

  // ----- attachments -----

  /** A live attachment that is wanted, on an active machine, of a volume with a disk nobody was robbed of, is
      published. */
  lemma PublishAnswered(y: System, p: Principal, x: string, es: seq<Event>, otherID: string)
    requires Inv(y) && p.role == "controller" && Commits(y, es, CALM) && Fresh(AfterCommit(y, es).platform, otherID)
    requires x in y.platform.attachments && Live(y.platform.attachments[x])
        && !y.platform.attachments[x].deleteRequested
    requires var a := y.platform.attachments[x];
             && ActiveOwn(y.cfg, p, a.link.instance) && a.link.volume in y.cloud
             && (a.uses != {} ==> Holder(Look(y.cloud, a.link.volume)) == Some((a.link.instance, a.id)))
    ensures var a, z := y.platform.attachments[x], AfterCommit(y, es);
            PublishReply(Apply(z.cfg, p, CreateAttachment,
                BLANK.(volume := a.link.volume, instance := a.link.instance), otherID,
                               z.platform).reply) == Answer(ContextOf(a))
  {
    hide Inv, Step, Run, Apply, Commits, MayAttach, Fresh;
    var a, z := y.platform.attachments[x], AfterCommit(y, es);
    var k, i := a.link.volume, a.link.instance;
    AttachmentOutcome(y, es, CALM, x);
    LiveServes(y, x);
    BecomesAvailable(y, es, k);
    CommitKeepsInv(y, es);
    CommitKeepsCfg(y, es, CALM);
    MayAttachAgain(z, p, x);
    AttachEffect(z.cfg, p, BLANK.(volume := k, instance := i), otherID, z.platform);
    assert IsLiveOn(z.platform, k, x);
  }

  lemma LiveServes(y: System, x: string)
    requires Inv(y) && x in y.platform.attachments && Live(y.platform.attachments[x])
    ensures var k := y.platform.attachments[x].link.volume;
            k in y.platform.volumes && !y.platform.volumes[k].deleteRequested
  {
    hide NodesFit, Backed, Shadows, GenerationsDistinct, NamesUnique;
    var k := y.platform.attachments[x].link.volume;
    assert AttachmentOk(y.cfg, y.platform, x, y.platform.attachments[x]);
    assert VolumeOk(k, y.platform.volumes[k]);
  }

  /** The machine that has the volume, attached and without error, may ask for it again. */
  lemma MayAttachAgain(z: System, p: Principal, x: string)
    requires Inv(z) && x in z.platform.attachments && z.platform.attachments[x].state == ATTACHED
    requires var a := z.platform.attachments[x];
             && ActiveOwn(z.cfg, p, a.link.instance) && a.link.volume in z.platform.volumes
             && z.platform.volumes[a.link.volume].state == AVAILABLE
                 && z.platform.volumes[a.link.volume].lastError == Clear
    ensures var a := z.platform.attachments[x]; MayAttach(z.cfg, p, a.link.volume, a.link.instance, z.platform)
  {
    hide NodesFit, Backed, Shadows, VolumesOk, GenerationsDistinct, NamesUnique;
    var a := z.platform.attachments[x];
    assert AttachmentOk(z.cfg, z.platform, x, a);
    forall w | IsLiveOn(z.platform, a.link.volume, w) ensures w == x {
      AtMostOneLive(z.cfg, z.platform, w, x);
    }
  }

  /** A publish that is granted with nobody on the volume is, after the reconcile, answered with a context. */
  lemma PublishThenOk(y: System, p: Principal, k: string, i: string, newID: string, es: seq<Event>, otherID: string)
    requires Inv(y) && p.role == "controller" && y.txn.None? && Fresh(y.platform, newID)
    requires MayAttach(y.cfg, p, k, i, y.platform) && !Busy(y.platform, k) && k in y.cloud
    requires var u := Step(y, Granting(p, CreateAttachment, BLANK.(volume := k, instance := i), newID));
             Commits(u, es, CALM) && Fresh(AfterCommit(u, es).platform, otherID)
    ensures var r := BLANK.(volume := k, instance := i);
            var u := Step(y, Granting(p, CreateAttachment, r, newID));
            var z := AfterCommit(u, es);
            && newID in u.platform.attachments
            && PublishReply(Apply(z.cfg, p, CreateAttachment, r, otherID, z.platform).reply)
            == Answer(ContextOf(u.platform.attachments[newID]))
  {
    hide Inv, Step, Run, Apply, Commits, Fresh;
    var r := BLANK.(volume := k, instance := i);
    var e := Granting(p, CreateAttachment, r, newID);
    StepKeeps(y, e);
    GrantedNow(y, p, k, i, newID);
    PublishAnswered(Step(y, e), p, newID, es, otherID);
  }

  lemma GrantedNow(y: System, p: Principal, k: string, i: string, newID: string)
    requires Inv(y) && p.role == "controller" && y.txn.None? && Fresh(y.platform, newID)
    requires MayAttach(y.cfg, p, k, i, y.platform) && !Busy(y.platform, k)
    ensures var u := Step(y, Granting(p, CreateAttachment, BLANK.(volume := k, instance := i), newID));
            && u.cloud == y.cloud && u.cfg == y.cfg && newID in u.platform.attachments
            && var a := u.platform.attachments[newID];
               a.state == ATTACHING && !a.deleteRequested && a.uses == {} && a.link.volume == k && a.link.instance == i
  {
    hide PlatformOk, NodesFit, Backed, Shadows, Apply, Busy;
    AttachEffect(y.cfg, p, BLANK.(volume := k, instance := i), newID, y.platform);
  }
}
