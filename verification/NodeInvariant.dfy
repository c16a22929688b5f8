/** What holds of one node's journal and mount table at every small step, given the platform they lean on. */
module NodeInvariant {
  import opened Model
  import opened Provider
  import opened Invariants
  import opened Hosts
  import opened Nodes

  // ----- what an entry may claim about the platform -----

  /** `v` is what the platform once showed of volume `k`, sizes having only grown since. */
  ghost predicate Recorded(s: Platform, k: string, v: Volume) {
    && k in s.volumes
    && v.id == k && v.spec == s.volumes[k].spec
    && v.deviceKey == DeviceKeyOf(k)
    && v.size <= s.volumes[k].size
  }

  /** The proof names an attachment of this volume to this node. */
  ghost predicate Bound(s: Platform, i: string, p: Request) {
    && p.attachment in s.attachments
    && s.attachments[p.attachment].link.volume == p.volume
    && s.attachments[p.attachment].link.instance == i
    && s.attachments[p.attachment].link.generation == p.generation
  }

  /** The platform still counts this use: as long as it does, the disk may not be detached. */
  ghost predicate Held(s: Platform, p: Request) {
    p.attachment in s.attachments && p.use in s.attachments[p.attachment].uses
  }

  // ----- the journal -----

  ghost predicate EntryOk(h: UseHash, i: string, s: Platform, k: string, e: Stage) {
    && k != ""
    && Recorded(s, k, e.volume)
    && e.proof.volume == k && Bound(s, i, e.proof)
    && e.proof.use == h(k, e.path, e.proof.generation)
    && e.proof.mode == e.volume.spec.mode && e.proof.fsType == e.volume.spec.fsType
    && e.path !in e.targets
    && forall t :: t in e.targets ==> e.targets[t].podUID != ""
  }

  ghost predicate JournalOk(h: UseHash, i: string, s: Platform, j: Journal) {
    forall k :: k in j ==> EntryOk(h, i, s, k, j[k])
  }

  /** Two entries share no path: neither stages nor publishes where the other does. */
  predicate Apart(e: Stage, f: Stage) {
    e.path != f.path && e.path !in f.targets && f.path !in e.targets && e.targets.Keys !! f.targets.Keys
  }

  ghost predicate AllApart(j: Journal) {
    forall k, l :: k in j && l in j && k != l ==> Apart(j[k], j[l])
  }

  /** No other volume's entry uses `path`. */
  ghost predicate PathFree(j: Journal, k: string, path: string) {
    forall l :: l in j && l != k ==> j[l].path != path && path !in j[l].targets
  }

  // ----- the mount table -----

  ghost predicate MountOk(s: Platform, j: Journal, m: Mounts, path: string, e: Mount) {
    && e.volume in j && e.volume in s.volumes
    && var r := j[e.volume];
       && Held(s, r.proof)
       && e.mode == r.volume.spec.mode && e.fsType == r.volume.spec.fsType
       && e.size <= s.volumes[e.volume].size
       && (if path == r.path then e.source == DeviceKeyOf(e.volume) && !e.readOnly
           else
             && path in r.targets
             && e.source == r.path && e.readOnly == r.targets[path].readOnly
             && r.path in m && m[r.path].volume == e.volume)
  }

  ghost predicate MountsOk(s: Platform, j: Journal, m: Mounts) {
    forall path :: path in m ==> MountOk(s, j, m, path, m[path])
  }

  predicate MountsVolume(m: Mounts, k: string) {
    exists path :: path in m && m[path].volume == k
  }

  ghost predicate SizedAs(m: Mounts, k: string, size: int) {
    forall path :: path in m && m[path].volume == k ==> m[path].size == size
  }

  // ----- the program counter -----

  /** At least what is required and, if there is a limit, at most that. */
  predicate Bounds(size: int, required: int, limit: int) { required <= size && (limit > 0 ==> size <= limit) }

  ghost predicate Keeps(s: Platform, j: Journal, k: string) {
    k in j && Held(s, j[k].proof)
  }

  ghost predicate PcOk(h: UseHash, i: string, s: Platform, n: Node) {
    var j := n.journal;
    match n.pc
    case Idle(_) => true
    case Acquiring(p, path) =>
      && p.volume != "" && p.use == h(p.volume, path, p.generation) && PathFree(j, p.volume, path)
      && (p.volume in j ==>
           var e := j[p.volume];
           && e.path == path && e.proof.attachment == p.attachment && e.proof.generation == p.generation
           && e.volume.spec.mode == p.mode && e.volume.spec.fsType == p.fsType)
    case Recording(k, e) =>
      && EntryOk(h, i, s, k, e) && Held(s, e.proof) && PathFree(j, k, e.path)
      && (if k in j then e == j[k].(volume := e.volume) else e.targets == map[] && !e.ready)
    case Mounting(k) => Keeps(s, j, k)
    case Formatting(k) => Keeps(s, j, k)
    case Placing(k) => Keeps(s, j, k)
    case Marking(k) => Keeps(s, j, k) && j[k].path in n.mounts
    case Finishing(k) => Keeps(s, j, k) && j[k].path in n.mounts
    case Permitting(k, t, w) => k in j && w.podUID != "" && PathFree(j, k, t) && j[k].path != t
        && (t in j[k].targets ==> j[k].targets[t] == w)
    case Noting(k, t, w) => Keeps(s, j, k) && w.podUID != "" && PathFree(j, k, t) && j[k].path != t
        && (t in j[k].targets ==> j[k].targets[t] == w)
    case Binding(k, t) => Keeps(s, j, k) && t in j[k].targets
    case Unbinding(k, t) => k in j && t in j[k].targets
    case Forgetting(k, t) => k in j && t in j[k].targets && t !in n.mounts
    case Unmounting(k) => k in j && j[k].targets == map[]
    case Releasing(k) => k in j && j[k].targets == map[] && j[k].path !in n.mounts
    case Erasing(k) => k in j && j[k].targets == map[] && j[k].path !in n.mounts && !Held(s, j[k].proof)
    case Checking(k, _, _) => k in j
    case Growing(k, v, required, limit) => Keeps(s, j, k) && Recorded(s, k, v) && Bounds(v.size, required, limit)
    case Updating(k, v, required, limit) =>
      && k in j && Recorded(s, k, v) && Bounds(v.size, required, limit)
      && j[k].path in n.mounts && SizedAs(n.mounts, k, v.size)
  }

  ghost predicate NodeOk(i: string, s: Platform, n: Node) {
    && JournalOk(n.hash, i, s, n.journal)
    && AllApart(n.journal)
    && MountsOk(s, n.journal, n.mounts)
    && PcOk(n.hash, i, s, n)
  }

  // ----- a mount sits where its own entry says -----

  /** Whatever sits at a path of volume `k`'s entry is a mount of `k`. */
  lemma MountAtOwnPath(i: string, s: Platform, n: Node, k: string, path: string)
    requires NodeOk(i, s, n) && k in n.journal && path in n.mounts
    requires path == n.journal[k].path || path in n.journal[k].targets
    ensures n.mounts[path].volume == k
  {
    var j, e := n.journal, n.mounts[path];
    assert MountOk(s, j, n.mounts, path, e);
    assert e.volume == k || Apart(j[e.volume], j[k]);
  }

  /** With no targets and nothing at its staging path, a volume has no mount at all. */
  lemma NoMountLeft(i: string, s: Platform, n: Node, k: string)
    requires NodeOk(i, s, n) && k in n.journal && n.journal[k].targets == map[] && n.journal[k].path !in n.mounts
    ensures !MountsVolume(n.mounts, k)
  {
    forall path | path in n.mounts ensures n.mounts[path].volume != k {
      assert MountOk(s, n.journal, n.mounts, path, n.mounts[path]);
    }
  }

  /** The host never meets a mount it did not expect: the collision branches are dead. */
  lemma NoCollision(i: string, s: Platform, n: Node)
    requires NodeOk(i, s, n) && HostEffect(n).Some?
    ensures HostEffect(n).value.error != StageCollision && HostEffect(n).value.error != TargetCollision
  {
    match n.pc {
      case Mounting(_) | Placing(_) =>
        var k := n.pc.volume;
        assert EntryOk(n.hash, i, s, k, n.journal[k]);
        if n.journal[k].path in n.mounts {
          MountAtOwnPath(i, s, n, k, n.journal[k].path);
          assert MountOk(s, n.journal, n.mounts, n.journal[k].path, n.mounts[n.journal[k].path]);
        }
      case Binding(k, t) =>
        assert EntryOk(n.hash, i, s, k, n.journal[k]);
        if t in n.mounts {
          MountAtOwnPath(i, s, n, k, t);
          assert MountOk(s, n.journal, n.mounts, t, n.mounts[t]);
        }
      case _ =>
    }
  }

  // ----- the platform moves underneath -----

  /** The volume whose use the program counter relies on. */
  function Relies(pc: PC): Option<string> {
    match pc
    case Recording(k, _) => Some(k)
    case Mounting(k) => Some(k)
    case Formatting(k) => Some(k)
    case Placing(k) => Some(k)
    case Marking(k) => Some(k)
    case Finishing(k) => Some(k)
    case Noting(k, _, _) => Some(k)
    case Binding(k, _) => Some(k)
    case Growing(k, _, _, _) => Some(k)
    case _ => None
  }

  /** The platform moved forward and kept this node's uses, except perhaps on a volume the node neither mounts nor
      relies on. */
  ghost predicate UsesKeptBut(s: Platform, t: Platform, i: string, k: string) {
    forall x :: x in s.attachments && s.attachments[x].link.instance == i && s.attachments[x].link.volume != k
                ==> x in t.attachments && s.attachments[x].uses <= t.attachments[x].uses
  }

  /** No use has been added to any attachment of this node. */
  ghost predicate NoUseAdded(s: Platform, t: Platform, i: string) {
    forall x :: x in s.attachments && s.attachments[x].link.instance == i && x in t.attachments
                ==> t.attachments[x].uses <= s.attachments[x].uses
  }

  lemma EntryFrame(h: UseHash, i: string, s: Platform, t: Platform, k: string, e: Stage)
    requires EntryOk(h, i, s, k, e) && Evolves(s, t)
    ensures EntryOk(h, i, t, k, e)
  {
  }

  lemma HeldFrame(h: UseHash, i: string, s: Platform, t: Platform, k: string, e: Stage, but: string)
    requires EntryOk(h, i, s, k, e) && Held(s, e.proof) && UsesKeptBut(s, t, i, but) && k != but
    ensures Held(t, e.proof)
  {
  }

  lemma ReleasedFrame(h: UseHash, i: string, s: Platform, t: Platform, k: string, e: Stage)
    requires EntryOk(h, i, s, k, e) && !Held(s, e.proof) && NoUseAdded(s, t, i)
    ensures !Held(t, e.proof)
  {
  }

  lemma RecordedFrame(s: Platform, t: Platform, k: string, v: Volume)
    requires Recorded(s, k, v) && Evolves(s, t)
    ensures Recorded(t, k, v)
  {
  }

  lemma NodeFrame(i: string, s: Platform, t: Platform, n: Node, but: string)
    requires NodeOk(i, s, n) && Evolves(s, t) && UsesKeptBut(s, t, i, but)
    requires !MountsVolume(n.mounts, but) && Relies(n.pc) != Some(but)
    requires n.pc.Erasing? ==> NoUseAdded(s, t, i)
    ensures NodeOk(i, t, n)
  {
    var j := n.journal;
    forall k | k in j
      ensures EntryOk(n.hash, i, t, k, j[k]) && (k != but && Held(s, j[k].proof) ==> Held(t, j[k].proof))
    {
      EntryFrame(n.hash, i, s, t, k, j[k]);
      if k != but && Held(s, j[k].proof) { HeldFrame(n.hash, i, s, t, k, j[k], but); }
    }
    forall path | path in n.mounts ensures MountOk(t, j, n.mounts, path, n.mounts[path]) {
      assert MountOk(s, j, n.mounts, path, n.mounts[path]);
    }
    PcFrame(i, s, t, n, but);
  }

  lemma PcFrame(i: string, s: Platform, t: Platform, n: Node, but: string)
    requires NodeOk(i, s, n) && Evolves(s, t) && UsesKeptBut(s, t, i, but)
    requires Relies(n.pc) != Some(but)
    requires n.pc.Erasing? ==> NoUseAdded(s, t, i)
    ensures PcOk(n.hash, i, t, n)
  {
    hide AllApart, MountsOk, PathFree, EntryOk, Held, Recorded, SizedAs, NoUseAdded, UsesKeptBut, Evolves;
    if n.pc.Erasing? {
      ReleasedFrame(n.hash, i, s, t, n.pc.volume, n.journal[n.pc.volume]);
    } else if n.pc.Updating? {
      RecordedFrame(s, t, n.pc.volume, n.pc.record);
    } else if n.pc.Growing? {
      RecordedFrame(s, t, n.pc.volume, n.pc.record);
      HeldFrame(n.hash, i, s, t, n.pc.volume, n.journal[n.pc.volume], but);
    } else if n.pc.Recording? {
      EntryFrame(n.hash, i, s, t, n.pc.volume, n.pc.stage);
      HeldFrame(n.hash, i, s, t, n.pc.volume, n.pc.stage, but);
    } else if Relies(n.pc).Some? {
      HeldFrame(n.hash, i, s, t, n.pc.volume, n.journal[n.pc.volume], but);
    }
  }
}
