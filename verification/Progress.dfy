/** Staging and unstaging get somewhere: with a usable context and no faults, they answer OK and leave what they
    promise. */
module Progress {
  import opened Model
  import opened Calls
  import opened Invariants
  import opened Wire
  import opened Hosts
  import opened Nodes
  import opened NodeInvariant
  import opened NodeSteps
  import opened NodeCalls
  import opened Agents

  function StageProof(n: Node, r: StageRequest, a: Attachment, m: Mode): Request {
    UseProof(n.hash, BLANK.(volume := r.volume, attachment := a.id, generation := a.link.generation), m, r.path)
  }

  /** The request carries the context of a healthy attachment of this volume to this node, asks for the volume's own
      mode, names a free path, and agrees with any earlier record. */
  ghost predicate Stageable(cfg: Config, i: string, s: Platform, n: Node, r: StageRequest, x: string) {
    && InstanceAllowed(cfg, IdentityOf(cfg, i), i)
    && x in s.attachments && r.volume in s.volumes
    && var a, v := s.attachments[x], s.volumes[r.volume];
       var m := Mode(v.spec.mode, v.spec.fsType);
       && a.link.volume == r.volume && a.link.instance == i && Healthy(a, v)
       && a.link.generation < UINT64_LIMIT && r.context == ContextOf(a) && ModeOf(r.capability) == Some(m)
       && r.pathOk && ValidID(n.hash(r.volume, r.path, a.link.generation))
       && (r.volume in n.journal ==> Matches(n.journal[r.volume], m, r.path, StageProof(n, r, a, m)))
       && !OwnedByOther(n.journal, r.volume, r.path)
  }

  lemma StageableBegins(cfg: Config, i: string, s: Platform, n: Node, r: StageRequest, x: string)
    requires PlatformOk(cfg, s) && Stageable(cfg, i, s, n, r, x)
    ensures var v := s.volumes[r.volume];
            Begin(n, StageVolume(r))
                == n.(pc := Acquiring(StageProof(n, r, s.attachments[x], Mode(v.spec.mode, v.spec.fsType)), r.path))
  {
    var a := s.attachments[x];
    assert AttachmentOk(cfg, s, x, a) && VolumeOk(r.volume, s.volumes[r.volume]);
    ContextReadsBack(a);
    hide ContextOf, ProofOf, OwnedByOther, Matches;
  }

  /** A healthy attachment's node may acquire a use, and then report on it. */
  lemma HealthyUse(cfg: Config, i: string, s: Platform, p: Request, x: string, q: Request)
    requires ConfigOk(cfg) && PlatformOk(cfg, s) && InstanceAllowed(cfg, IdentityOf(cfg, i), i)
    requires q.attachment == p.attachment && q.volume == p.volume && q.generation == p.generation && q.use == p.use
    requires x == p.attachment && x in s.attachments && p.volume in s.volumes
    requires var a, v := s.attachments[x], s.volumes[p.volume];
             && a.link.volume == p.volume && a.link.instance == i && a.link.generation == p.generation
             && Healthy(a, v) && ValidID(p.use) && p.mode == v.spec.mode && p.fsType == v.spec.fsType
    ensures var ap := NodeApply(cfg, i, (AcquireUse, p), s);
            && ap.reply.Done? && ap.reply.volume == Some(s.volumes[p.volume])
            && NodeApply(cfg, i, (MarkInitialized, q), ap.state).reply.Done?
  {
    assert AttachmentOk(cfg, s, x, s.attachments[x]);
    hide PlatformOk, ValidID;
  }

  function StageRun(cfg: Config, i: string, x: Exchange, r: StageRequest): Exchange {
    SaveTurn(CallTurn(cfg, i, HostTurn(SaveTurn(CallTurn(cfg, i, BeginTurn(x, StageVolume(r)), Fine), Fine), Fine),
        Fine), Fine)
  }

  /** From the record being saved to the stage being ready. */
  lemma RecordedStageSucceeds(cfg: Config, i: string, x: Exchange)
    requires NodeOk(i, x.platform, x.node) && x.node.pc.Recording?
    requires x.node.pc.stage.proof.volume == x.node.pc.volume
    requires NodeApply(cfg, i, (MarkInitialized, x.node.pc.stage.proof), x.platform).reply.Done?
    ensures var z, k := SaveTurn(CallTurn(cfg, i, HostTurn(SaveTurn(x, Fine), Fine), Fine), Fine), x.node.pc.volume;
            && z.node.pc == Idle(OK)
            && k in z.node.journal && z.node.journal[k].ready && z.node.journal[k].path == x.node.pc.stage.path
            && x.node.pc.stage.path in z.node.mounts && z.node.mounts[x.node.pc.stage.path].volume == k
  {
    hide NodeOk, NodeApply, CallTurn, HostTurn, SaveTurn;
    var k, e := x.node.pc.volume, x.node.pc.stage;
    var x1 := SaveTurn(x, Fine);
    RecordingTurns(x, Fine);
    SaveKeeps(i, x.platform, x.node, Fine);
    var x2 := HostTurn(x1, Fine);
    var done := Staged(x1.node.mounts, e.volume, e.path);
    SavedRecording(x);
    NoCollision(i, x1.platform, x1.node);
    Effects(x1, Fine, done, done, Marking(k));
    HostKeeps(i, x1.platform, x1.node, Fine);
    HostTurnNode(x1);
    MountAtOwnPath(i, x2.platform, x2.node, k, e.path);
    var x3 := CallTurn(cfg, i, x2, Fine);
    MarkingTurns(cfg, i, x2, Fine, k);
    FinishedSave(x3, k);
  }

  lemma HostTurnNode(x: Exchange)
    ensures HostTurn(x, Fine).node == HostStep(x.node, Fine)
  {
  }

  lemma SavedRecording(x: Exchange)
    requires x.node.pc.Recording?
    ensures Saved(x.node, Fine) == SaveTurn(x, Fine).node
  {
  }

  lemma FinishedSave(x: Exchange, k: string)
    requires x.node.pc == Finishing(k) && k in x.node.journal
    ensures var e := x.node.journal[k];
            SaveTurn(x, Fine).node
                == x.node.(journal := x.node.journal[k := e.(volume := e.volume.(allowFormat := false),
                    ready := true)], pc := Idle(OK))
  {
  }

  /** Staging with a usable context and no faults answers OK: the volume is mounted where the caller asked, and its
      record is ready. */
  lemma StagingSucceeds(cfg: Config, i: string, x: Exchange, r: StageRequest, a: string)
    requires ConfigOk(cfg) && PlatformOk(cfg, x.platform) && DevicesOk(x.platform) && NodeOk(i, x.platform, x.node)
    requires x.node.pc.Idle? && Stageable(cfg, i, x.platform, x.node, r, a)
    ensures var z := StageRun(cfg, i, x, r);
            && z.node.pc == Idle(OK)
            && r.volume in z.node.journal && z.node.journal[r.volume].ready
            && z.node.journal[r.volume].path == r.path
            && r.path in z.node.mounts && z.node.mounts[r.path].volume == r.volume
  {
    hide PlatformOk, DevicesOk, NodeOk, NodeApply, CallTurn, HostTurn, SaveTurn, ContextOf, OwnedByOther;
    var s, n := x.platform, x.node;
    var v := s.volumes[r.volume];
    var p := StageProof(n, r, s.attachments[a], Mode(v.spec.mode, v.spec.fsType));
    var x1 := BeginTurn(x, StageVolume(r));
    StageableBegins(cfg, i, s, n, r, a);
    BeginKeeps(i, s, n, StageVolume(r));
    AttachmentNamed(cfg, s, a);
    RecordAgrees(cfg, i, x1, p, r.path, v);
    HealthyUse(cfg, i, s, p, a, StageRecord(n.journal, p, r.path, v).proof);
    var x2 := CallTurn(cfg, i, x1, Fine);
    AcquiringTurns(cfg, i, x1, Fine, p, r.path);
    AnswerKeeps(cfg, i, s, x1.node);
    AcquiringAsks(x1.node);
    RecordedStageSucceeds(cfg, i, x2);
  }

  lemma AttachmentNamed(cfg: Config, s: Platform, a: string)
    requires PlatformOk(cfg, s) && a in s.attachments
    ensures s.attachments[a].id == a
  {
    assert AttachmentOk(cfg, s, a, s.attachments[a]);
  }

  lemma AcquiringAsks(n: Node)
    requires n.pc.Acquiring?
    ensures Pending(n) == Some((AcquireUse, n.pc.proof))
  {
  }

  /** The record a stage is about to write carries the proof just accepted, whether or not there was one before. */
  lemma RecordAgrees(cfg: Config, i: string, x: Exchange, p: Request, path: string, v: Volume)
    requires NodeOk(i, x.platform, x.node) && x.node.pc == Acquiring(p, path)
    ensures var e := StageRecord(x.node.journal, p, path, v);
            e.path == path && e.proof.volume == p.volume && e.proof.attachment == p.attachment
            && e.proof.generation == p.generation && e.proof.use == p.use
  {
    var j := x.node.journal;
    if p.volume in j { assert EntryOk(x.node.hash, i, x.platform, p.volume, j[p.volume]); }
  }

  // ----- and back -----

  function UnstageRun(cfg: Config, i: string, x: Exchange, volume: string, path: string): Exchange {
    SaveTurn(CallTurn(cfg, i, HostTurn(BeginTurn(x, UnstageVolume(volume, path, true)), Fine), Fine), Fine)
  }

  /** An own proof is released, whatever state its attachment is in. */
  lemma ReleaseWorks(cfg: Config, i: string, s: Platform, p: Request)
    requires ConfigOk(cfg) && PlatformOk(cfg, s) && Bound(s, i, p) && ValidID(p.use)
        && InstanceAllowed(cfg, IdentityOf(cfg, i), i)
    ensures var ap := NodeApply(cfg, i, (ReleaseUse, p), s); ap.reply.Done? && !Held(ap.state, p)
  {
    assert AttachmentOk(cfg, s, p.attachment, s.attachments[p.attachment]);
  }

  /** Unstaging a volume without published targets answers OK: no mount of it is left, the use is given back, the
      record is gone. */
  lemma UnstagingSucceeds(cfg: Config, i: string, x: Exchange, k: string)
    requires ConfigOk(cfg) && PlatformOk(cfg, x.platform) && NodeOk(i, x.platform, x.node) && x.node.pc.Idle?
    requires InstanceAllowed(cfg, IdentityOf(cfg, i), i)
    requires k in x.node.journal && x.node.journal[k].targets == map[] && ValidID(x.node.journal[k].proof.use)
    ensures var z := UnstageRun(cfg, i, x, k, x.node.journal[k].path);
            && z.node.pc == Idle(OK) && k !in z.node.journal && !MountsVolume(z.node.mounts, k)
            && !Held(z.platform, x.node.journal[k].proof)
            && z.platform == NodeApply(cfg, i, (ReleaseUse, x.node.journal[k].proof), x.platform).state
  {
    hide PlatformOk, NodeApply, CallTurn, HostTurn, SaveTurn, AllApart, MountsOk, JournalOk;
    var s, e := x.platform, x.node.journal[k];
    var c := UnstageVolume(k, e.path, true);
    assert EntryOk(x.node.hash, i, s, k, e) by { EntrySound(i, s, x.node, k); }
    var x1 := BeginTurn(x, c);
    Begins(x, c, Unmounting(k));
    BeginKeeps(i, s, x.node, c);
    var x2 := HostTurn(x1, Fine);
    Effects(x1, Fine, Unmounted(x1.node.mounts, e.path), Unmounted(x1.node.mounts, e.path), Releasing(k));
    HostKeeps(i, s, x1.node, Fine);
    HostTurnNode(x1);
    NoMountLeft(i, s, x2.node, k);
    ReleasingTurns(cfg, i, x2, Fine, k);
    ReleaseWorks(cfg, i, s, e.proof);
    var x3 := CallTurn(cfg, i, x2, Fine);
    Writes(x3, Fine, x3.node.journal - {k}, Idle(OK));
  }

  lemma EntrySound(i: string, s: Platform, n: Node, k: string)
    requires NodeOk(i, s, n) && k in n.journal
    ensures EntryOk(n.hash, i, s, k, n.journal[k])
  {
  }

  // ----- publishing, unpublishing, expanding -----

  /** The journal has a ready entry for the volume, its stage is mounted, its use is held and its attachment is
      healthy. */
  ghost predicate InService(cfg: Config, i: string, s: Platform, n: Node, k: string) {
    && InstanceAllowed(cfg, IdentityOf(cfg, i), i)
    && k in n.journal && n.journal[k].ready && n.journal[k].path in n.mounts
    && var p := n.journal[k].proof;
       && ValidID(p.use) && Held(s, p) && k in s.volumes && Healthy(s.attachments[p.attachment], s.volumes[k])
  }

  /** A use in service is confirmed, and confirming it changes nothing. */
  lemma ServiceConfirmed(cfg: Config, i: string, s: Platform, n: Node, k: string, q: (Op, Request))
    requires ConfigOk(cfg) && PlatformOk(cfg, s) && NodeOk(i, s, n) && InService(cfg, i, s, n, k)
    requires q.1 == n.journal[k].proof.(podUID := q.1.podUID)
    requires q.0 == CheckUse || (q.0 == RecordPublish && ValidID(q.1.podUID))
    ensures var ap := NodeApply(cfg, i, q, s); ap.reply.Done? && ap.state == s && ap.reply.volume == Some(s.volumes[k])
  {
    hide NodeOk, PlatformOk, NodeApply, ValidID, ConfigOk;
    EntrySound(i, s, n, k);
    ConfirmedUse(cfg, i, s, q);
  }

  lemma ConfirmedUse(cfg: Config, i: string, s: Platform, q: (Op, Request))
    requires ConfigOk(cfg) && PlatformOk(cfg, s) && InstanceAllowed(cfg, IdentityOf(cfg, i), i)
    requires Bound(s, i, q.1) && Held(s, q.1) && ValidID(q.1.use)
    requires q.1.volume in s.volumes && Healthy(s.attachments[q.1.attachment], s.volumes[q.1.volume])
    requires q.0 == CheckUse || (q.0 == RecordPublish && ValidID(q.1.podUID))
    ensures var ap := NodeApply(cfg, i, q, s);
            ap.reply.Done? && ap.state == s && ap.reply.volume == Some(s.volumes[q.1.volume])
  {
    assert AttachmentOk(cfg, s, q.1.attachment, s.attachments[q.1.attachment]);
    hide PlatformOk, ValidID;
  }

  function PublishRun(cfg: Config, i: string, x: Exchange, r: PublishRequest): Exchange {
    HostTurn(SaveTurn(CallTurn(cfg, i, BeginTurn(x, PublishVolume(r)), Fine), Fine), Fine)
  }

  /** The request agrees with the stage, names a pod, and a target nothing else uses. */
  ghost predicate Publishable(n: Node, r: PublishRequest) {
    var m, p := ModeOf(r.capability), ProofOf(r.volume, r.context);
    && r.volume != "" && r.targetOk && r.stagingOk && r.target != r.staging && ValidID(r.podUID) && m.Some? && p.Some?
    && r.volume in n.journal && Matches(n.journal[r.volume], m.value, r.staging, p.value)
    && !TargetTaken(n.journal, r.volume, r.target)
    && (r.target in n.journal[r.volume].targets
        ==> n.journal[r.volume].targets[r.target] == Target(r.readOnly, r.podUID))
  }

  /** Publishing a volume in service answers OK: its stage is bound at the target, read-only if so asked. */
  lemma PublishingSucceeds(cfg: Config, i: string, x: Exchange, r: PublishRequest)
    requires ConfigOk(cfg) && PlatformOk(cfg, x.platform) && DevicesOk(x.platform) && NodeOk(i, x.platform, x.node)
    requires x.node.pc.Idle? && InService(cfg, i, x.platform, x.node, r.volume) && Publishable(x.node, r)
    ensures var z := PublishRun(cfg, i, x, r);
            && z.platform == x.platform && z.node.pc == Idle(OK)
            && r.target in z.node.mounts && z.node.mounts[r.target].volume == r.volume
            && z.node.mounts[r.target].source == r.staging && z.node.mounts[r.target].readOnly == r.readOnly
  {
    hide PlatformOk, DevicesOk, NodeOk, NodeApply, CallTurn, HostTurn, SaveTurn, Held, ValidID, TargetTaken, ModeOf,
        ProofOf;
    var s, n, k := x.platform, x.node, r.volume;
    var wanted := Target(r.readOnly, r.podUID);
    var x1 := BeginTurn(x, PublishVolume(r));
    Begins(x, PublishVolume(r), Permitting(k, r.target, wanted));
    BeginKeeps(i, s, n, PublishVolume(r));
    ServiceConfirmed(cfg, i, s, n, k, (RecordPublish, n.journal[k].proof.(podUID := r.podUID)));
    AnswerKeeps(cfg, i, s, x1.node);
    var x2 := CallTurn(cfg, i, x1, Fine);
    PermittingTurns(cfg, i, x1, Fine, k, r.target, wanted);
    assert x2 == Exchange(s, n.(pc := Noting(k, r.target, wanted)));
    PermittedNode(cfg, i, s, x1.node, x2.node);
    BoundTarget(i, x2, k, r.target, wanted);
  }

  lemma PermittedNode(cfg: Config, i: string, s: Platform, m: Node, n: Node)
    requires m.pc.Permitting? && m.pc.volume in m.journal
        && n == m.(pc := Noting(m.pc.volume, m.pc.target, m.pc.wanted))
    requires var ap := NodeApply(cfg, i, Pending(m).value, s);
             ap.reply.Done? && ap.state == s && NodeOk(i, s, Answered(m, ap.reply))
    ensures NodeOk(i, s, n)
  {
    hide NodeOk, NodeApply;
  }

  /** From the noted target to the bound one. */
  lemma BoundTarget(i: string, x: Exchange, k: string, t: string, w: Target)
    requires NodeOk(i, x.platform, x.node) && x.node.pc == Noting(k, t, w)
    requires k in x.node.journal && x.node.journal[k].path in x.node.mounts
    ensures var z := HostTurn(SaveTurn(x, Fine), Fine);
            && z.platform == x.platform && z.node.pc == Idle(OK)
            && t in z.node.mounts && z.node.mounts[t].volume == k
            && z.node.mounts[t].source == x.node.journal[k].path && z.node.mounts[t].readOnly == w.readOnly
  {
    hide NodeOk, HostTurn, SaveTurn, Published;
    var x1 := SaveTurn(x, Fine);
    NotingTurns(x, Fine, k, t, w);
    SaveKeeps(i, x.platform, x.node, Fine);
    SavedNode(x);
    var e := x1.node.journal[k];
    MountAtOwnPath(i, x1.platform, x1.node, k, e.path);
    NamedById(i, x1.platform, x1.node, k);
    NoCollision(i, x1.platform, x1.node);
    var done := Published(x1.node.mounts, e.volume, e.path, t, w.readOnly);
    BindsUnlessCollision(x1.node.mounts, e.volume, e.path, t, w.readOnly);
    Effects(x1, Fine, done, done, Idle(OK));
    HostKeeps(i, x1.platform, x1.node, Fine);
    HostTurnNode(x1);
    MountAtTarget(i, x1.platform, HostStep(x1.node, Fine), k, t);
  }

  lemma SavedNode(x: Exchange)
    requires Saves(x.node.pc)
    ensures Saved(x.node, Fine) == SaveTurn(x, Fine).node
  {
  }

  lemma NamedById(i: string, s: Platform, n: Node, k: string)
    requires NodeOk(i, s, n) && k in n.journal
    ensures n.journal[k].volume.id == k
  {
    hide AllApart, MountsOk, PcOk;
    assert EntryOk(n.hash, i, s, k, n.journal[k]);
  }

  lemma BindsUnlessCollision(m: Mounts, v: Volume, stage: string, t: string, ro: bool)
    requires stage in m && m[stage].volume == v.id
    ensures Published(m, v, stage, t, ro).error == NoError || Published(m, v, stage, t, ro).error == TargetCollision
    ensures t in Published(m, v, stage, t, ro).mounts
  {
  }

  /** What sits at a noted target is a bind of the volume's stage, as noted. */
  lemma MountAtTarget(i: string, s: Platform, n: Node, k: string, t: string)
    requires NodeOk(i, s, n) && k in n.journal && t in n.journal[k].targets && t in n.mounts
    ensures n.mounts[t].volume == k && n.mounts[t].source == n.journal[k].path
    ensures n.mounts[t].readOnly == n.journal[k].targets[t].readOnly
  {
    hide AllApart, PcOk;
    MountAtOwnPath(i, s, n, k, t);
    assert MountOk(s, n.journal, n.mounts, t, n.mounts[t]);
    assert EntryOk(n.hash, i, s, k, n.journal[k]);
  }

  function UnpublishRun(x: Exchange, k: string, t: string): Exchange {
    SaveTurn(HostTurn(BeginTurn(x, UnpublishVolume(k, t, true)), Fine), Fine)
  }

  /** Unpublishing always works: the target is unmounted and forgotten. */
  lemma UnpublishingSucceeds(x: Exchange, k: string, t: string)
    requires x.node.pc.Idle? && k != ""
    ensures var z := UnpublishRun(x, k, t);
            && z.platform == x.platform && z.node.pc == Idle(OK)
            && (k in z.node.journal ==> t !in z.node.journal[k].targets)
            && (k in x.node.journal && t in x.node.journal[k].targets ==> t !in z.node.mounts)
  {
    hide HostTurn, SaveTurn;
    var c := UnpublishVolume(k, t, true);
    var x1 := BeginTurn(x, c);
    if k in x.node.journal && t in x.node.journal[k].targets {
      Begins(x, c, Unbinding(k, t));
      var gone := Unmounted(x1.node.mounts, t);
      Effects(x1, Fine, gone, gone, Forgetting(k, t));
      var x2, e := HostTurn(x1, Fine), x.node.journal[k];
      Writes(x2, Fine, x2.node.journal[k := e.(targets := e.targets - {t})], Idle(OK));
    } else {
      Begins(x, c, Idle(OK));
    }
  }

  function ExpandRun(cfg: Config, i: string, x: Exchange, k: string, path: string, required: int,
                     limit: int): Exchange {
    SaveTurn(HostTurn(CallTurn(cfg, i, BeginTurn(x, ExpandVolume(k, path, true, required, limit)), Fine), Fine), Fine)
  }

  /** Expanding a volume in service whose platform size is within the bounds answers OK: every mount of it has that
      size. */
  lemma ExpandingSucceeds(cfg: Config, i: string, x: Exchange, k: string, path: string, required: int, limit: int)
    requires ConfigOk(cfg) && PlatformOk(cfg, x.platform) && DevicesOk(x.platform) && NodeOk(i, x.platform, x.node)
    requires x.node.pc.Idle? && k != "" && InService(cfg, i, x.platform, x.node, k)
    requires path == x.node.journal[k].path || path in x.node.journal[k].targets
    requires 0 < required <= x.platform.volumes[k].size && (limit > 0 ==> x.platform.volumes[k].size <= limit)
    ensures var z := ExpandRun(cfg, i, x, k, path, required, limit);
            && z.platform == x.platform && z.node.pc == Idle(OK)
            && SizedAs(z.node.mounts, k, x.platform.volumes[k].size)
            && k in z.node.journal && z.node.journal[k].volume == x.platform.volumes[k]
  {
    hide PlatformOk, DevicesOk, NodeOk, NodeApply, CallTurn, HostTurn, SaveTurn, Held, ValidID, Grown;
    var s, n := x.platform, x.node;
    var v, e := s.volumes[k], n.journal[k];
    var c := ExpandVolume(k, path, true, required, limit);
    var x1 := BeginTurn(x, c);
    Begins(x, c, Checking(k, required, limit));
    hide Begin, BeginTurn;
    ServiceConfirmed(cfg, i, s, n, k, (CheckUse, e.proof));
    CheckingTurns(cfg, i, x1, Fine, k, required, limit);
    MountAtOwnPath(i, s, n, k, e.path);
    IdIsKey(cfg, s, k);
    hide InService, Pending;
    GrownAndSaved(CallTurn(cfg, i, x1, Fine), k, v, required, limit);
  }

  /** From the accepted check to the saved size. */
  lemma GrownAndSaved(x: Exchange, k: string, v: Volume, required: int, limit: int)
    requires x.node.pc == Growing(k, v, required, limit) && v.id == k && k in x.node.journal
    requires x.node.journal[k].path in x.node.mounts && x.node.mounts[x.node.journal[k].path].volume == k
    ensures var z := SaveTurn(HostTurn(x, Fine), Fine);
            && z.platform == x.platform && z.node.pc == Idle(OK)
            && SizedAs(z.node.mounts, k, v.size) && k in z.node.journal && z.node.journal[k].volume == v
  {
    hide HostTurn, SaveTurn, Grown;
    var n := x.node;
    var e := n.journal[k];
    GrownIsSized(n.mounts, k, v.size);
    var done := Expanded(n.mounts, v, e.path);
    Effects(x, Fine, done, done, Updating(k, v, required, limit));
    Writes(HostTurn(x, Fine), Fine, n.journal[k := e.(volume := v)], Idle(OK));
  }

  lemma IdIsKey(cfg: Config, s: Platform, k: string)
    requires PlatformOk(cfg, s) && k in s.volumes
    ensures s.volumes[k].id == k
  {
    assert VolumeOk(k, s.volumes[k]);
  }
}
