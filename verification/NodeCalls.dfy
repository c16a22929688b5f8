/** What a node's own API call does to the platform, to itself and to every other node. */
module NodeCalls {
  import opened Model
  import opened Provider
  import opened Calls
  import opened Invariants
  import opened Nodes
  import opened NodeInvariant
  import opened NodeSteps

  /** A volume that can be attached has the device key the cloud gave its disk. */
  ghost predicate DeviceOk(k: string, v: Volume) {
    (v.deviceKey == "" || v.deviceKey == DeviceKeyOf(k)) && (Serving(v) ==> v.deviceKey == DeviceKeyOf(k))
  }

  ghost predicate DevicesOk(s: Platform) {
    forall k :: k in s.volumes ==> DeviceOk(k, s.volumes[k])
  }

  function IdentityOf(cfg: Config, i: string): Principal {
    if i in cfg.instances then Principal("node", cfg.instances[i].tenant, cfg.instances[i].cluster, i)
    else Principal("node", "", "", i)
  }

  function NodeApply(cfg: Config, i: string, q: (Op, Request), s: Platform): Applied {
    NodeCall(cfg, IdentityOf(cfg, i), q.0, q.1, s)
  }

  /** The platform and one node, between which a call goes. */
  datatype Exchange = Exchange(platform: Platform, node: Node)

  /** The node's pending call and what it hears of the outcome. */
  function CallTurn(cfg: Config, i: string, x: Exchange, f: Fault): (r: Exchange)
    ensures Pending(x.node).None? || x.node.pc.Idle? ==> r == x
  {
    if Pending(x.node).None? then x
    else
      var heard := Carried(NodeApply(cfg, i, Pending(x.node).value, x.platform), x.platform, f);
      Exchange(heard.state, Answered(x.node, heard.reply))
  }

  // ----- what acceptance means -----

  lemma RefusalsAreNotOk(cfg: Config, i: string, q: (Op, Request), s: Platform)
    ensures NodeApply(cfg, i, q, s).reply != Rejected(OK)
  {
  }

  /** An accepted use operation was proved by an attachment of this very node, volume and generation. */
  lemma AcceptedIsBound(cfg: Config, i: string, q: (Op, Request), s: Platform)
    requires ConfigOk(cfg) && IsUseOp(q.0) && NodeApply(cfg, i, q, s).reply.Done?
    ensures Bound(s, i, q.1)
  {
  }

  /** Everything but a release finds the attachment and its volume healthy, and the request in order. */
  lemma AcceptedIsHealthy(cfg: Config, i: string, q: (Op, Request), s: Platform)
    requires IsUseOp(q.0) && q.0 != ReleaseUse && NodeApply(cfg, i, q, s).reply.Done?
    ensures q.1.attachment in s.attachments && q.1.volume in s.volumes
    ensures Healthy(s.attachments[q.1.attachment], s.volumes[q.1.volume])
    ensures var v := s.volumes[q.1.volume]; q.0 == AcquireUse ==> q.1.mode == v.spec.mode && q.1.fsType == v.spec.fsType
    ensures q.0 != AcquireUse ==> Held(s, q.1)
  {
    hide ProofMatches, ValidID;
  }

  /** And it leaves the use held, and answers with the volume as it leaves it. */
  lemma AcceptedEffect(cfg: Config, i: string, q: (Op, Request), s: Platform)
    requires IsUseOp(q.0) && q.0 != ReleaseUse && NodeApply(cfg, i, q, s).reply.Done?
    ensures var ap := NodeApply(cfg, i, q, s);
            && q.1.volume in ap.state.volumes && ap.reply.volume == Some(ap.state.volumes[q.1.volume])
            && Held(ap.state, q.1)
  {
    hide ProofMatches, ValidID;
  }

  /** Everything but a release also shows a live attachment on a serving volume, and its record. */
  lemma AcceptedIsLive(cfg: Config, i: string, q: (Op, Request), s: Platform)
    requires ConfigOk(cfg) && PlatformOk(cfg, s) && IsUseOp(q.0) && q.0 != ReleaseUse
    requires NodeApply(cfg, i, q, s).reply.Done?
    ensures Bound(s, i, q.1)
    ensures var a := s.attachments[q.1.attachment];
            && a.state == ATTACHED && q.1.volume in s.volumes && Serving(s.volumes[q.1.volume])
    ensures q.1.volume in NodeApply(cfg, i, q, s).state.volumes
    ensures NodeApply(cfg, i, q, s).reply.volume == Some(NodeApply(cfg, i, q, s).state.volumes[q.1.volume])
    ensures var v := s.volumes[q.1.volume]; q.0 == AcquireUse ==> q.1.mode == v.spec.mode && q.1.fsType == v.spec.fsType
    ensures q.0 != AcquireUse ==> Held(s, q.1)
    ensures Held(NodeApply(cfg, i, q, s).state, q.1)
  {
    hide NodeApply, Held;
    AcceptedIsBound(cfg, i, q, s);
    AcceptedIsHealthy(cfg, i, q, s);
    AcceptedEffect(cfg, i, q, s);
    assert AttachmentOk(cfg, s, q.1.attachment, s.attachments[q.1.attachment]);
  }

  // ----- frames -----

  /** A node's call releases no other node's use, and of its own only the one it names. */
  lemma CallKeepsUses(cfg: Config, i: string, q: (Op, Request), s: Platform, j: string)
    requires ConfigOk(cfg)
    requires j != i || q.0 != ReleaseUse
        || (q.1.attachment in s.attachments ==> s.attachments[q.1.attachment].link.volume == q.1.volume)
    ensures UsesKeptBut(s, NodeApply(cfg, i, q, s).state, j, if j == i && q.0 == ReleaseUse then q.1.volume else "")
  {
  }

  /** A node's call adds a use to no other node's attachment. */
  lemma CallAddsNoUse(cfg: Config, i: string, q: (Op, Request), s: Platform, j: string)
    requires ConfigOk(cfg) && i != j
    ensures NoUseAdded(s, NodeApply(cfg, i, q, s).state, j)
  {
  }

  lemma CallAdvances(cfg: Config, i: string, q: (Op, Request), s: Platform)
    requires ConfigOk(cfg) && PlatformOk(cfg, s)
    ensures Advances(cfg, s, NodeApply(cfg, i, q, s).state)
  {
    Stays(cfg, s);
    if InstanceAllowed(cfg, IdentityOf(cfg, i), i) && IsUseOp(q.0) {
      UseCallKeeps(cfg, cfg.instances[i], q.0, q.1, s);
    }
  }

  lemma NoNamelessMount(i: string, s: Platform, n: Node)
    requires NodeOk(i, s, n)
    ensures !MountsVolume(n.mounts, "") && Relies(n.pc) != Some("")
  {
    forall path | path in n.mounts ensures n.mounts[path].volume != "" {
      assert MountOk(s, n.journal, n.mounts, path, n.mounts[path]);
      assert EntryOk(n.hash, i, s, n.mounts[path].volume, n.journal[n.mounts[path].volume]);
    }
    if Relies(n.pc).Some? && !n.pc.Recording? {
      assert EntryOk(n.hash, i, s, n.pc.volume, n.journal[n.pc.volume]);
    }
  }

  lemma EntryNames(i: string, s: Platform, n: Node, k: string)
    requires NodeOk(i, s, n) && k in n.journal
    ensures n.journal[k].proof.volume == k && Bound(s, i, n.journal[k].proof)
  {
    assert EntryOk(n.hash, i, s, k, n.journal[k]);
  }

  /** The calling node is sound on the platform its call leaves, before it knows the answer. */
  lemma CallerUnaware(cfg: Config, i: string, s: Platform, n: Node)
    requires ConfigOk(cfg) && PlatformOk(cfg, s) && NodeOk(i, s, n) && Pending(n).Some?
    ensures NodeOk(i, NodeApply(cfg, i, Pending(n).value, s).state, n)
  {
    hide NodeApply, PlatformOk, JournalOk, AllApart, MountsOk, UsesKeptBut, Evolves;
    var q := Pending(n).value;
    var t := NodeApply(cfg, i, q, s).state;
    CallAdvances(cfg, i, q, s);
    if n.pc.Releasing? {
      var k := n.pc.volume;
      EntryNames(i, s, n, k);
      NoMountLeft(i, s, n, k);
      CallKeepsUses(cfg, i, q, s, i);
      NodeFrame(i, s, t, n, k);
    } else {
      NoNamelessMount(i, s, n);
      CallKeepsUses(cfg, i, q, s, i);
      NodeFrame(i, s, t, n, "");
    }
  }

  /** Another node is untouched. */
  lemma BystanderKeeps(cfg: Config, i: string, q: (Op, Request), s: Platform, j: string, m: Node)
    requires ConfigOk(cfg) && PlatformOk(cfg, s) && NodeOk(j, s, m) && i != j
    ensures NodeOk(j, NodeApply(cfg, i, q, s).state, m)
  {
    CallAdvances(cfg, i, q, s);
    CallKeepsUses(cfg, i, q, s, j);
    CallAddsNoUse(cfg, i, q, s, j);
    NoNamelessMount(j, s, m);
    NodeFrame(j, s, NodeApply(cfg, i, q, s).state, m, "");
  }

  // ----- hearing the answer -----

  /** The record that `AcquireUse` authorizes is sound: it is bound to this node and its use is held. */
  lemma AcquiredKeeps(cfg: Config, i: string, s: Platform, n: Node)
    requires ConfigOk(cfg) && PlatformOk(cfg, s) && DevicesOk(s) && NodeOk(i, s, n) && n.pc.Acquiring?
    requires NodeApply(cfg, i, (AcquireUse, n.pc.proof), s).reply.Done?
    ensures var ap := NodeApply(cfg, i, (AcquireUse, n.pc.proof), s);
            PcOk(n.hash, i, ap.state, Answered(n, ap.reply))
  {
    hide NodeApply, PlatformOk, DevicesOk, AllApart, MountsOk, PathFree, Evolves;
    var q := (AcquireUse, n.pc.proof);
    var p, t := n.pc.proof, NodeApply(cfg, i, q, s).state;
    AcceptedIsLive(cfg, i, q, s);
    CallAdvances(cfg, i, q, s);
    RecordShown(cfg, s, t, p.volume);
    BoundStill(s, t, i, p);
    if p.volume in n.journal { assert EntryOk(n.hash, i, s, p.volume, n.journal[p.volume]); }
    SpecStays(s, t, p.volume);
    var e := StageRecord(n.journal, p, n.pc.path, t.volumes[p.volume]);
    assert EntryOk(n.hash, i, t, p.volume, e) && Held(t, e.proof);
  }

  lemma BoundStill(s: Platform, t: Platform, i: string, p: Request)
    requires Bound(s, i, p) && Evolves(s, t)
    ensures Bound(t, i, p)
  {
  }

  lemma SpecStays(s: Platform, t: Platform, k: string)
    requires Evolves(s, t) && k in s.volumes
    ensures k in t.volumes && t.volumes[k].spec == s.volumes[k].spec
  {
  }

  lemma AskedOfEntry(cfg: Config, i: string, s: Platform, n: Node)
    requires NodeOk(i, s, n) && Pending(n).Some? && !n.pc.Acquiring?
    ensures n.pc.volume in n.journal && n.pc.volume == Pending(n).value.1.volume
    ensures Pending(n).value.0 == ReleaseUse <==> n.pc.Releasing?
    ensures Pending(n).value.1 == n.journal[n.pc.volume].proof.(podUID := Pending(n).value.1.podUID)
    ensures IsUseOp(Pending(n).value.0) && Pending(n).value.0 != AcquireUse
  {
    assert EntryOk(n.hash, i, s, n.pc.volume, n.journal[n.pc.volume]);
  }

  /** After any other accepted call, the use it named is still held unless it was a release. */
  lemma OtherAnswerFacts(cfg: Config, i: string, s: Platform, n: Node)
    requires ConfigOk(cfg) && PlatformOk(cfg, s) && DevicesOk(s) && NodeOk(i, s, n) && Pending(n).Some?
        && !n.pc.Acquiring?
    requires NodeApply(cfg, i, Pending(n).value, s).reply.Done? && !n.pc.Releasing?
    ensures var ap, k := NodeApply(cfg, i, Pending(n).value, s), n.pc.volume;
            && Keeps(ap.state, n.journal, k)
            && ap.reply.volume.Some? && Recorded(ap.state, k, ap.reply.volume.value)
  {
    hide JournalOk, AllApart, MountsOk, EntryOk, NodeApply, Recorded, PathFree, PlatformOk, DevicesOk, PcOk;
    var q := Pending(n).value;
    AskedOfEntry(cfg, i, s, n);
    AcceptedIsLive(cfg, i, q, s);
    CallAdvances(cfg, i, q, s);
    RecordShown(cfg, s, NodeApply(cfg, i, q, s).state, n.pc.volume);
  }

  lemma ReleaseGivesBack(cfg: Config, i: string, s: Platform, n: Node)
    requires ConfigOk(cfg) && NodeOk(i, s, n) && n.pc.Releasing?
    requires NodeApply(cfg, i, Pending(n).value, s).reply.Done?
    ensures !Held(NodeApply(cfg, i, Pending(n).value, s).state, n.journal[n.pc.volume].proof)
  {
    hide JournalOk, AllApart, MountsOk, ProofMatches, ValidID;
  }

  lemma OtherAnswerKeeps(cfg: Config, i: string, s: Platform, n: Node)
    requires ConfigOk(cfg) && PlatformOk(cfg, s) && DevicesOk(s) && NodeOk(i, s, n) && Pending(n).Some?
        && !n.pc.Acquiring?
    requires NodeApply(cfg, i, Pending(n).value, s).reply.Done?
    ensures var ap := NodeApply(cfg, i, Pending(n).value, s);
            PcOk(n.hash, i, ap.state, Answered(n, ap.reply))
  {
    hide JournalOk, AllApart, MountsOk, EntryOk, NodeApply, Recorded, PathFree, PlatformOk, DevicesOk, Keeps, ConfigOk;
    assert PcOk(n.hash, i, s, n);
    if n.pc.Releasing? { ReleaseGivesBack(cfg, i, s, n); } else { OtherAnswerFacts(cfg, i, s, n); }
  }

  /** What the platform shows of a serving volume may go into the journal. */
  lemma RecordShown(cfg: Config, s: Platform, t: Platform, k: string)
    requires PlatformOk(cfg, s) && DevicesOk(s) && k in s.volumes && Serving(s.volumes[k]) && Advances(cfg, s, t)
    ensures k in t.volumes && Recorded(t, k, t.volumes[k])
  {
    assert DeviceOk(k, s.volumes[k]) && VolumeOk(k, s.volumes[k]);
  }

  lemma AnswerKeeps(cfg: Config, i: string, s: Platform, n: Node)
    requires ConfigOk(cfg) && PlatformOk(cfg, s) && DevicesOk(s) && NodeOk(i, s, n) && Pending(n).Some?
    ensures var ap := NodeApply(cfg, i, Pending(n).value, s);
            NodeOk(i, ap.state, Answered(n, ap.reply)) && NodeOk(i, ap.state, Stop(n, Unavailable))
  {
    hide PlatformOk, DevicesOk, NodeApply, Answered, JournalOk, AllApart, MountsOk, PcOk;
    var ap := NodeApply(cfg, i, Pending(n).value, s);
    CallerUnaware(cfg, i, s, n);
    StopKeeps(i, ap.state, n, Unavailable);
    if ap.reply.Done? {
      if n.pc.Acquiring? { AcquiredKeeps(cfg, i, s, n); } else { OtherAnswerKeeps(cfg, i, s, n); }
    } else {
      StopKeeps(i, ap.state, n, ap.reply.code);
    }
  }
}
