/** How far the journal can be trusted about the mount table: when a ready record may lack its mount, and when mounts
    of one volume may differ in size. Both can happen; this says in which step. */
module Records {
  import opened Model
  import opened Calls
  import opened Hosts
  import opened Nodes
  import opened NodeInvariant
  import opened NodeCalls
  import opened Linux
  import opened Systems
  import opened SystemInvariant
  import opened EndToEnd

  // ----- only the node's own host effect touches its mounts -----

  predicate HostEvent(e: Event, i: string) { e.NodeHosts? && e.node == i }

  lemma MountsStayPut(y: System, e: Event, i: string)
    requires i in y.nodes && !HostEvent(e, i)
    ensures i in Step(y, e).nodes && Step(y, e).nodes[i].mounts == y.nodes[i].mounts
  {
    hide NodeApply, Begin, Answered, Pending, Draft, AfterSave, HostTurned, VolumeTurned, AttachmentTurned;
    if !MovesNode(e, i) { OthersStayPut(y, e, i); }
  }

  lemma HostMounts(y: System, i: string, f: Fault)
    requires i in y.nodes
    ensures var n, m := y.nodes[i], HostTurned(y, i, f).nodes[i];
            && m.journal == n.journal
            && (m.mounts == n.mounts || (!f.Before? && HostEffect(n).Some? && m.mounts == HostEffect(n).value.mounts))
            && (!f.Before? && HostEffect(n).Some? && !n.pc.Mounting? && !n.pc.Formatting?
                ==> m.mounts == HostEffect(n).value.mounts)
  {
    hide HostEffect, AfterHost, FormatRequired, Probes;
  }

  // ----- a ready record and its mount -----

  /** The host takes the volume's stage down on the node's behalf, whether or not the agent lives to see it. */
  predicate Unmounts(y: System, e: Event, i: string, k: string) {
    HostEvent(e, i) && !e.fault.Before? && i in y.nodes && y.nodes[i].pc == Unmounting(k)
  }

  lemma StageGoesIff(i: string, s: Platform, n: Node, k: string)
    requires NodeOk(i, s, n) && HostEffect(n).Some? && k in n.journal && n.journal[k].path in n.mounts
    ensures n.journal[k].path !in HostEffect(n).value.mounts <==> n.pc == Unmounting(k)
  {
    hide PcOk, MountsOk;
    assert EntryOk(n.hash, i, s, k, n.journal[k]);
    if (n.pc.Unbinding? || n.pc.Unmounting?) && n.pc.volume != k && n.pc.volume in n.journal {
      assert Apart(n.journal[n.pc.volume], n.journal[k]);
    }
    assert n.pc.Unbinding? ==> n.pc.volume in n.journal && n.pc.target in n.journal[n.pc.volume].targets by {
      PcNames(i, s, n);
    }
  }

  lemma PcNames(i: string, s: Platform, n: Node)
    requires NodeOk(i, s, n)
    ensures n.pc.Unbinding? ==> n.pc.volume in n.journal && n.pc.target in n.journal[n.pc.volume].targets
    ensures n.pc.Unmounting? || n.pc.Binding? ==> n.pc.volume in n.journal
    ensures n.pc.Binding? ==> n.pc.target in n.journal[n.pc.volume].targets
  {
    hide JournalOk, AllApart, MountsOk, EntryOk;
  }

  /** Of a volume the journal knows and whose stage is mounted, the mount disappears in exactly one step: the host
      effect of an unstage of that volume. */
  lemma StageUnmountedIff(y: System, e: Event, i: string, k: string)
    requires Inv(y) && i in y.nodes && k in y.nodes[i].journal && y.nodes[i].journal[k].path in y.nodes[i].mounts
    ensures i in Step(y, e).nodes
    ensures y.nodes[i].journal[k].path !in Step(y, e).nodes[i].mounts <==> Unmounts(y, e, i, k)
  {
    hide CoreOk, NodeOk, HostTurned, HostEffect;
    var n := y.nodes[i];
    assert NodeFits(y, i, n);
    if HostEvent(e, i) {
      HostMounts(y, i, e.fault);
      if HostEffect(n).Some? { StageGoesIff(i, y.platform, n, k); }
      if n.pc == Unmounting(k) { UnmountingActs(n, k); }
    } else {
      MountsStayPut(y, e, i);
    }
  }

  lemma UnmountingActs(n: Node, k: string)
    requires n.pc == Unmounting(k) && k in n.journal
    ensures HostEffect(n).Some?
  {
  }

  ghost predicate ReadyAt(nodes: map<string, Node>, i: string, k: string) {
    i in nodes && k in nodes[i].journal && nodes[i].journal[k].ready
  }

  ghost predicate MountedAt(nodes: map<string, Node>, i: string, k: string)
    requires ReadyAt(nodes, i, k)
  {
    nodes[i].journal[k].path in nodes[i].mounts
  }

  /** Every ready record has its stage mounted. */
  ghost predicate ReadyMounted(y: System) {
    forall i, k :: ReadyAt(y.nodes, i, k) ==> MountedAt(y.nodes, i, k)
  }

  ghost predicate UnmountsReady(y: System, e: Event) {
    e.NodeHosts? && e.node in y.nodes && y.nodes[e.node].pc.Unmounting?
    && ReadyAt(y.nodes, e.node, y.nodes[e.node].pc.volume) && Unmounts(y, e, e.node, y.nodes[e.node].pc.volume)
  }

  /** An entry that is ready after a step was ready before, at the same path, or its stage is mounted now. */
  lemma BecomesReady(y: System, e: Event, i: string, k: string)
    requires Inv(y) && ReadyAt(Step(y, e).nodes, i, k)
    ensures (ReadyAt(y.nodes, i, k) && Step(y, e).nodes[i].journal[k].path == y.nodes[i].journal[k].path)
         || MountedAt(Step(y, e).nodes, i, k)
  {
    hide CoreOk, NodeOk, Step, Saved, HostTurned, Called, Started, Begin;
    if !MovesNode(e, i) {
      NodesStay(y, e);
      OthersStayPut(y, e, i);
    } else {
      NodesStay(y, e);
      assert NodeFits(y, i, y.nodes[i]);
      if e.NodeSaves? {
        SavesOnlyThis(y, e);
        SaveReadies(i, y.platform, y.nodes[i], e.fault, k);
      } else {
        JournalStays(y, e);
      }
    }
  }

  lemma NodesStay(y: System, e: Event)
    ensures Step(y, e).nodes.Keys == y.nodes.Keys
  {
    hide NodeApply, Apply, HostStep, Saved, Begin, Answered, FormatRequired;
  }

  lemma SavesOnlyThis(y: System, e: Event)
    requires e.NodeSaves? && e.node in y.nodes
    ensures e.node in Step(y, e).nodes && Step(y, e).nodes[e.node] == Saved(y.nodes[e.node], e.fault)
  {
  }

  lemma JournalStays(y: System, e: Event)
    requires (e.NodeStarts? || e.NodeCalls? || e.NodeHosts? || e.NodeCrashes?) && e.node in y.nodes
    ensures e.node in Step(y, e).nodes && Step(y, e).nodes[e.node].journal == y.nodes[e.node].journal
  {
    hide NodeApply, Begin, Answered, Pending, HostTurned;
    if e.NodeHosts? { HostMounts(y, e.node, e.fault); }
  }

  lemma SaveReadies(i: string, s: Platform, n: Node, f: Fault, k: string)
    requires NodeOk(i, s, n) && k in Saved(n, f).journal && Saved(n, f).journal[k].ready
    ensures (k in n.journal && n.journal[k].ready && Saved(n, f).journal[k].path == n.journal[k].path)
         || Saved(n, f).journal[k].path in Saved(n, f).mounts
  {
    hide JournalOk, AllApart, MountsOk, EntryOk, PathFree, Held, AfterSave;
  }

  /** From a state in which every ready record has its mount, a step breaks that if and only if it is the host effect
      of an unstage of a ready volume. */
  lemma ReadyUnmountedIff(y: System, e: Event)
    requires Inv(y) && ReadyMounted(y)
    ensures ReadyMounted(Step(y, e)) <==> !UnmountsReady(y, e)
  {
    hide Inv, Step;
    NodesStay(y, e);
    if UnmountsReady(y, e) {
      var i, k := e.node, y.nodes[e.node].pc.volume;
      assert MountedAt(y.nodes, i, k);
      StageUnmountedIff(y, e, i, k);
      JournalStays(y, e);
      assert ReadyAt(Step(y, e).nodes, i, k) && !MountedAt(Step(y, e).nodes, i, k);
    } else {
      forall i, k | ReadyAt(Step(y, e).nodes, i, k) ensures MountedAt(Step(y, e).nodes, i, k) {
        BecomesReady(y, e, i, k);
        if ReadyAt(y.nodes, i, k) {
          assert MountedAt(y.nodes, i, k);
          StageUnmountedIff(y, e, i, k);
        }
      }
    }
  }

  ghost predicate NeverUnmountsReady(y: System, es: seq<Event>)
    decreases |es|
  {
    es == [] || (!UnmountsReady(y, es[0]) && NeverUnmountsReady(Step(y, es[0]), es[1..]))
  }

  /** So a ready record implies its mount in every run in which no unstage got as far as its host effect. */
  lemma {:induction false} ReadyStaysMounted(y: System, es: seq<Event>)
    requires Inv(y) && ReadyMounted(y) && NeverUnmountsReady(y, es)
    ensures ReadyMounted(Run(y, es))
    decreases |es|
  {
    hide Inv, Step, ReadyMounted, UnmountsReady;
    if es != [] {
      ReadyUnmountedIff(y, es[0]);
      StepKeeps(y, es[0]);
      ReadyStaysMounted(Step(y, es[0]), es[1..]);
    }
  }

  // ----- sizes of the mounts of one volume -----

  ghost predicate Even(m: Mounts, k: string) {
    forall p, q :: p in m && q in m && m[p].volume == k && m[q].volume == k ==> m[p].size == m[q].size
  }

  /** The node is about to bind a new target, and the record's size is not that of the stage's mount. */
  predicate BindsOdd(n: Node, k: string) {
    && n.pc.Binding? && n.pc.volume == k && n.pc.target !in n.mounts
    && k in n.journal && n.journal[k].path in n.mounts
    && n.mounts[n.journal[k].path].size != n.journal[k].volume.size
  }

  predicate Splits(y: System, e: Event, i: string, k: string) {
    HostEvent(e, i) && !e.fault.Before? && i in y.nodes && BindsOdd(y.nodes[i], k)
  }

  lemma GrownStaysEven(m: Mounts, v: string, size: int, k: string)
    requires Even(m, k)
    ensures Even(Grown(m, v, size), k)
  {
  }

  /** Without its stage mounted a volume has no mount at all. */
  lemma NoStageNoMount(i: string, s: Platform, n: Node, k: string, path: string)
    requires NodeOk(i, s, n) && path in n.mounts && n.mounts[path].volume == k
    ensures k in n.journal && n.journal[k].path in n.mounts
  {
    hide JournalOk, AllApart, PcOk;
    assert MountOk(s, n.journal, n.mounts, path, n.mounts[path]);
  }

  lemma StagingStaysEven(i: string, s: Platform, n: Node, k: string)
    requires NodeOk(i, s, n) && (n.pc.Mounting? || n.pc.Placing?) && Even(n.mounts, k)
    ensures HostEffect(n).Some? && Even(HostEffect(n).value.mounts, k)
  {
    hide AllApart, MountsOk;
    var l := n.pc.volume;
    assert EntryOk(n.hash, i, s, l, n.journal[l]);
    forall path | path in n.mounts && n.mounts[path].volume == l ensures n.journal[l].path in n.mounts {
      NoStageNoMount(i, s, n, l, path);
    }
  }

  lemma BindingSplitsIff(i: string, s: Platform, n: Node, k: string)
    requires NodeOk(i, s, n) && n.pc.Binding? && Even(n.mounts, k)
    ensures HostEffect(n).Some? && (Even(HostEffect(n).value.mounts, k) <==> !BindsOdd(n, k))
  {
    hide AllApart, MountsOk;
    var l, t, m := n.pc.volume, n.pc.target, n.mounts;
    var e := n.journal[l];
    assert EntryOk(n.hash, i, s, l, e);
    var g := HostEffect(n).value.mounts;
    if e.path in m {
      MountAtOwnPath(i, s, n, l, e.path);
      if t !in m {
        assert g[t].volume == l && g[t].size == e.volume.size && g[e.path] == m[e.path];
      }
    }
  }

  lemma EffectSplitsIff(i: string, s: Platform, n: Node, k: string)
    requires NodeOk(i, s, n) && HostEffect(n).Some? && Even(n.mounts, k)
    ensures Even(HostEffect(n).value.mounts, k) <==> !BindsOdd(n, k)
  {
    hide NodeOk, Even, HostEffect;
    match n.pc {
      case Mounting(_) | Placing(_) => StagingStaysEven(i, s, n, k);
      case Binding(_, _) => BindingSplitsIff(i, s, n, k);
      case _ => RestStaysEven(n, k);
    }
  }

  lemma RestStaysEven(n: Node, k: string)
    requires HostEffect(n).Some? && Even(n.mounts, k) && !n.pc.Mounting? && !n.pc.Placing? && !n.pc.Binding?
    ensures Even(HostEffect(n).value.mounts, k)
  {
    if n.pc.Growing? { GrownStaysEven(n.mounts, n.pc.record.id, n.pc.record.size, k); }
    hide Grown;
  }

  /** While the mounts of a volume on a node are of one size, a step makes them differ if and only if it binds a new
      target at a recorded size that is not the stage's. */
  lemma SizesSplitIff(y: System, e: Event, i: string, k: string)
    requires Inv(y) && i in y.nodes && Even(y.nodes[i].mounts, k)
    ensures i in Step(y, e).nodes
    ensures Even(Step(y, e).nodes[i].mounts, k) <==> !Splits(y, e, i, k)
  {
    hide CoreOk, NodeOk, HostTurned, HostEffect, Even;
    var n := y.nodes[i];
    assert NodeFits(y, i, n);
    if HostEvent(e, i) {
      HostMounts(y, i, e.fault);
      if HostEffect(n).Some? { EffectSplitsIff(i, y.platform, n, k); }
      if n.pc.Binding? { BindingSplitsIff(i, y.platform, n, k); }
    } else {
      MountsStayPut(y, e, i);
    }
  }
}
