/** The agent's turns, seen as events of the whole system. */
module Turns {
  import opened Model
  import opened Nodes
  import opened NodeCalls
  import opened Agents
  import opened Systems

  /** The system with one node, and perhaps the platform, moved on. */
  function Placed(y: System, i: string, x: Exchange): System { WithNode(y, i, x.node).(platform := x.platform) }

  lemma StartsAs(y: System, i: string, c: Rpc)
    requires i in y.nodes && y.nodes[i].pc.Idle?
    ensures Step(y, NodeStarts(i, c)) == Placed(y, i, BeginTurn(Exchange(y.platform, y.nodes[i]), c))
  {
    hide Begin;
  }

  lemma HostsAs(y: System, i: string)
    requires i in y.nodes && !y.nodes[i].pc.Mounting? && !y.nodes[i].pc.Formatting?
    ensures Step(y, NodeHosts(i, Fine)) == Placed(y, i, HostTurn(Exchange(y.platform, y.nodes[i]), Fine))
  {
    hide HostStep;
  }

  lemma CallsAs(y: System, i: string)
    requires i in y.nodes && y.txn.None?
    ensures Step(y, NodeCalls(i, Fine)) == Placed(y, i, CallTurn(y.cfg, i, Exchange(y.platform, y.nodes[i]), Fine))
  {
    hide CallTurn;
  }

  lemma SavesAs(y: System, i: string)
    requires i in y.nodes
    ensures Step(y, NodeSaves(i, Fine)) == Placed(y, i, SaveTurn(Exchange(y.platform, y.nodes[i]), Fine))
  {
    hide Saved;
  }

  /** A host that has nothing to probe simply acts. */
  lemma HostsPlainly(y: System, i: string)
    requires i in y.nodes && !y.nodes[i].pc.Formatting?
    requires y.nodes[i].pc.Mounting? && y.nodes[i].pc.volume in y.nodes[i].journal && i in y.linux ==>
      var e := y.nodes[i].journal[y.nodes[i].pc.volume];
      e.volume.spec.mode == "block" || e.path in y.nodes[i].mounts
    ensures Step(y, NodeHosts(i, Fine)) == Placed(y, i, HostTurn(Exchange(y.platform, y.nodes[i]), Fine))
  {
    hide HostStep;
  }
}
