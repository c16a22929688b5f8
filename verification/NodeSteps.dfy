/** Every small step of a node keeps its invariant. */
module NodeSteps {
  import opened Model
  import opened Hosts
  import opened Nodes
  import opened NodeInvariant

  lemma StopKeeps(i: string, s: Platform, n: Node, code: Code)
    requires NodeOk(i, s, n)
    ensures NodeOk(i, s, Stop(n, code))
  {
  }

  // ----- starting an RPC -----

  lemma NotOwnedIsFree(h: UseHash, i: string, s: Platform, j: Journal, k: string, path: string)
    requires JournalOk(h, i, s, j) && !OwnedByOther(j, k, path)
    ensures PathFree(j, k, path)
  {
    forall l | l in j && l != k ensures j[l].path != path && path !in j[l].targets {
      assert EntryOk(h, i, s, l, j[l]);
    }
  }

  lemma BeginStageKeeps(i: string, s: Platform, n: Node, r: StageRequest)
    requires JournalOk(n.hash, i, s, n.journal)
    ensures PcOk(n.hash, i, s, BeginStage(n, r))
  {
    var b := BeginStage(n, r);
    if b.pc.Acquiring? {
      NotOwnedIsFree(n.hash, i, s, n.journal, r.volume, r.path);
    }
  }

  lemma BeginPublishKeeps(i: string, s: Platform, n: Node, r: PublishRequest)
    ensures PcOk(n.hash, i, s, BeginPublish(n, r))
  {
  }

  lemma BeginRestKeeps(i: string, s: Platform, n: Node, c: Rpc)
    requires !c.StageVolume? && !c.PublishVolume?
    ensures PcOk(n.hash, i, s, Begin(n, c))
  {
    hide EntryOk, PathFree, Keeps, BeginStage, BeginPublish, Recorded;
  }

  lemma BeginKeeps(i: string, s: Platform, n: Node, c: Rpc)
    requires NodeOk(i, s, n)
    ensures NodeOk(i, s, Begin(n, c))
  {
    match c {
      case StageVolume(r) => BeginStageKeeps(i, s, n, r);
      case PublishVolume(r) => BeginPublishKeeps(i, s, n, r);
      case _ => BeginRestKeeps(i, s, n, c);
    }
    hide JournalOk, AllApart, MountsOk, PcOk, BeginStage, BeginPublish, BeginUnpublish, BeginUnstage, BeginExpand;
  }

  // ----- journal saves -----

  /** Replacing one entry by one that overlaps no other. */
  lemma PutEntry(h: UseHash, i: string, s: Platform, j: Journal, k: string, e: Stage)
    requires JournalOk(h, i, s, j) && AllApart(j) && EntryOk(h, i, s, k, e)
    requires forall l :: l in j && l != k ==> Apart(j[l], e)
    ensures JournalOk(h, i, s, j[k := e]) && AllApart(j[k := e])
  {
    var d := j[k := e];
    forall l, m | l in d && m in d && l != m ensures Apart(d[l], d[m]) {
      assert l in j && l != k ==> Apart(j[l], e);
      assert m in j && m != k ==> Apart(j[m], e);
      assert l != k && m != k ==> Apart(j[l], j[m]);
    }
  }

  /** The mounts do not notice an entry that keeps its proof, its path and the targets that are mounted. */
  lemma MountsFrame(s: Platform, j: Journal, m: Mounts, k: string, e: Stage)
    requires MountsOk(s, j, m)
    requires k in j ==>
      && e.proof == j[k].proof && e.path == j[k].path
      && e.volume.spec == j[k].volume.spec
      && forall t :: t in j[k].targets && t in m ==> t in e.targets && e.targets[t] == j[k].targets[t]
    ensures MountsOk(s, j[k := e], m)
  {
    forall path | path in m ensures MountOk(s, j[k := e], m, path, m[path]) {
      assert MountOk(s, j, m, path, m[path]);
    }
  }

  /** An entry that keeps its paths and its proof, and takes only free targets, fits where the old one was. */
  lemma EntryFits(i: string, s: Platform, n: Node, k: string, e: Stage)
    requires NodeOk(i, s, n) && EntryOk(n.hash, i, s, k, e)
    requires PathFree(n.journal, k, e.path)
    requires forall t :: t in e.targets ==> PathFree(n.journal, k, t)
    requires k in n.journal ==>
      && e.proof == n.journal[k].proof && e.path == n.journal[k].path
      && forall t :: t in n.journal[k].targets && t in n.mounts
          ==> t in e.targets && e.targets[t] == n.journal[k].targets[t]
    ensures var d := n.journal[k := e]; JournalOk(n.hash, i, s, d) && AllApart(d) && MountsOk(s, d, n.mounts)
  {
    var j := n.journal;
    forall l | l in j && l != k ensures Apart(j[l], e) {
      assert forall t :: t in e.targets ==> t !in j[l].targets;
      assert k in j ==> Apart(j[l], j[k]);
    }
    assert k in j ==> EntryOk(n.hash, i, s, k, j[k]);
    PutEntry(n.hash, i, s, j, k, e);
    MountsFrame(s, j, n.mounts, k, e);
  }

  lemma OwnPathsFree(i: string, s: Platform, n: Node, k: string)
    requires NodeOk(i, s, n) && k in n.journal
    ensures PathFree(n.journal, k, n.journal[k].path)
    ensures forall t :: t in n.journal[k].targets ==> PathFree(n.journal, k, t)
  {
    forall l | l in n.journal && l != k ensures Apart(n.journal[l], n.journal[k]) {
    }
  }

  ghost predicate DraftFits(i: string, s: Platform, n: Node) {
    var d := Draft(n);
    JournalOk(n.hash, i, s, d) && AllApart(d) && MountsOk(s, d, n.mounts)
  }

  lemma RecordingFits(i: string, s: Platform, n: Node)
    requires NodeOk(i, s, n) && n.pc.Recording?
    ensures DraftFits(i, s, n)
  {
    var k := n.pc.volume;
    if k in n.journal { OwnPathsFree(i, s, n, k); }
    EntryFits(i, s, n, k, n.pc.stage);
  }

  predicate Updates(pc: PC) { pc.Finishing? || pc.Updating? || pc.Noting? || pc.Forgetting? }

  lemma UpdatedEntryOk(i: string, s: Platform, n: Node)
    requires NodeOk(i, s, n) && Updates(n.pc)
    ensures n.pc.volume in n.journal && n.pc.volume in Draft(n)
        && EntryOk(n.hash, i, s, n.pc.volume, Draft(n)[n.pc.volume])
  {
    hide AllApart, MountsOk, Bound, PathFree, Held;
    assert EntryOk(n.hash, i, s, n.pc.volume, n.journal[n.pc.volume]);
  }

  /** The draft's entry is the old one but for its record, its readiness or one target. */
  lemma UpdatedPaths(i: string, s: Platform, n: Node)
    requires NodeOk(i, s, n) && Updates(n.pc)
    ensures var j, k := n.journal, n.pc.volume;
            && k in j && k in Draft(n) && Draft(n) == j[k := Draft(n)[k]]
            && Draft(n)[k].path == j[k].path && Draft(n)[k].proof == j[k].proof
            && (forall t :: t in Draft(n)[k].targets ==> t in j[k].targets || PathFree(j, k, t))
            && (forall t :: t in j[k].targets && t in n.mounts
                   ==> t in Draft(n)[k].targets && Draft(n)[k].targets[t] == j[k].targets[t])
  {
    hide AllApart, MountsOk, JournalOk, Held, Recorded;
  }

  lemma UpdateFits(i: string, s: Platform, n: Node)
    requires NodeOk(i, s, n) && Updates(n.pc)
    ensures DraftFits(i, s, n)
  {
    hide NodeOk, EntryOk, Draft;
    UpdatedEntryOk(i, s, n);
    UpdatedPaths(i, s, n);
    OwnPathsFree(i, s, n, n.pc.volume);
    EntryFits(i, s, n, n.pc.volume, Draft(n)[n.pc.volume]);
  }

  lemma ErasingFits(i: string, s: Platform, n: Node)
    requires NodeOk(i, s, n) && n.pc.Erasing?
    ensures DraftFits(i, s, n)
  {
    hide EntryOk, Held, Recorded, PathFree;
    var k := n.pc.volume;
    NoMountLeft(i, s, n, k);
    forall path | path in n.mounts ensures MountOk(s, n.journal - {k}, n.mounts, path, n.mounts[path]) {
      assert MountOk(s, n.journal, n.mounts, path, n.mounts[path]);
    }
    hide EntryOk, MountOk, Held;
  }

  lemma DraftKeeps(i: string, s: Platform, n: Node)
    requires NodeOk(i, s, n) && Saves(n.pc)
    ensures DraftFits(i, s, n)
  {
    hide NodeOk, DraftFits;
    match n.pc {
      case Recording(_, _) => RecordingFits(i, s, n);
      case Erasing(_) => ErasingFits(i, s, n);
      case _ => UpdateFits(i, s, n);
    }
  }

  lemma AfterSavePcOk(i: string, s: Platform, n: Node)
    requires NodeOk(i, s, n) && Saves(n.pc)
    ensures PcOk(n.hash, i, s, n.(journal := Draft(n), pc := AfterSave(n)))
  {
    hide JournalOk, AllApart, MountsOk, EntryOk;
  }

  lemma SaveKeeps(i: string, s: Platform, n: Node, f: Fault)
    requires NodeOk(i, s, n)
    ensures NodeOk(i, s, Saved(n, f))
  {
    if Saves(n.pc) {
      DraftKeeps(i, s, n);
      AfterSavePcOk(i, s, n);
    }
    hide JournalOk, AllApart, MountsOk, EntryOk, Held, Recorded;
  }

  // ----- host effects -----

  ghost predicate EffectFits(s: Platform, n: Node) {
    HostEffect(n).Some? ==> MountsOk(s, n.journal, HostEffect(n).value.mounts)
  }

  lemma MountingFits(i: string, s: Platform, n: Node)
    requires NodeOk(i, s, n) && (n.pc.Mounting? || n.pc.Placing?)
    ensures EffectFits(s, n)
  {
    hide AllApart, Bound;
    var j, m, k := n.journal, n.mounts, n.pc.volume;
    assert EntryOk(n.hash, i, s, k, j[k]);
    var g := Staged(m, j[k].volume, j[k].path).mounts;
    forall path | path in g ensures MountOk(s, j, g, path, g[path]) {
      assert path in m ==> MountOk(s, j, m, path, m[path]);
    }
  }

  lemma BindingFits(i: string, s: Platform, n: Node)
    requires NodeOk(i, s, n) && n.pc.Binding?
    ensures EffectFits(s, n)
  {
    hide AllApart, Bound;
    var j, m, k, t := n.journal, n.mounts, n.pc.volume, n.pc.target;
    assert EntryOk(n.hash, i, s, k, j[k]);
    var g := Published(m, j[k].volume, j[k].path, t, j[k].targets[t].readOnly).mounts;
    forall path | path in g ensures MountOk(s, j, g, path, g[path]) {
      assert path in m ==> MountOk(s, j, m, path, m[path]);
    }
  }

  /** A path that is no other mount's stage may be unmounted. */
  lemma UnmountKeeps(i: string, s: Platform, n: Node, k: string, gone: string)
    requires NodeOk(i, s, n) && k in n.journal
    requires gone in n.journal[k].targets || (gone == n.journal[k].path && n.journal[k].targets == map[])
    ensures MountsOk(s, n.journal, n.mounts - {gone})
  {
    var j, m := n.journal, n.mounts;
    assert EntryOk(n.hash, i, s, k, j[k]);
    forall path | path in m && path != gone ensures MountOk(s, j, m - {gone}, path, m[path]) {
      assert MountOk(s, j, m, path, m[path]);
      assert m[path].volume == k || Apart(j[m[path].volume], j[k]);
    }
  }

  lemma GrownMountsOk(s: Platform, j: Journal, m: Mounts, k: string, size: int)
    requires MountsOk(s, j, m) && k in s.volumes && size <= s.volumes[k].size
    ensures MountsOk(s, j, Grown(m, k, size))
  {
    var g := Grown(m, k, size);
    forall path | path in g ensures MountOk(s, j, g, path, g[path]) {
      assert MountOk(s, j, m, path, m[path]);
    }
  }

  lemma EffectKeeps(i: string, s: Platform, n: Node)
    requires NodeOk(i, s, n)
    ensures EffectFits(s, n)
  {
    hide EntryOk, AllApart, JournalOk, MountsOk;
    match n.pc {
      case Mounting(_) | Placing(_) => MountingFits(i, s, n);
      case Binding(_, _) => BindingFits(i, s, n);
      case Unbinding(k, t) => UnmountKeeps(i, s, n, k, t);
      case Unmounting(k) => UnmountKeeps(i, s, n, k, n.journal[k].path);
      case Growing(k, v, _, _) => GrownMountsOk(s, n.journal, n.mounts, v.id, v.size);
      case _ =>
    }
  }

  lemma AfterHostPcOk(i: string, s: Platform, n: Node)
    requires NodeOk(i, s, n) && HostEffect(n).Some? && HostEffect(n).value.error == NoError
    ensures PcOk(n.hash, i, s, n.(mounts := HostEffect(n).value.mounts, pc := AfterHost(n.pc)))
  {
    hide JournalOk, AllApart, MountsOk, EntryOk, PathFree, Grown;
    if n.pc.Growing? { GrownIsSized(n.mounts, n.pc.volume, n.pc.record.size); }
  }

  lemma GrownIsSized(m: Mounts, k: string, size: int)
    ensures SizedAs(Grown(m, k, size), k, size) && Grown(m, k, size).Keys == m.Keys
  {
  }

  lemma HostKeeps(i: string, s: Platform, n: Node, f: Fault)
    requires NodeOk(i, s, n)
    ensures NodeOk(i, s, HostStep(n, f))
  {
    EffectKeeps(i, s, n);
    if HostEffect(n).Some? && HostEffect(n).value.error == NoError { AfterHostPcOk(i, s, n); }
    hide JournalOk, AllApart, MountsOk, EntryOk, Held, Recorded, HostEffect;
  }
}
