/** Every volume that ever exists is one the configuration allows. */
module Places {
  import opened Model
  import opened Calls
  import opened Invariants
  import opened Nodes
  import opened NodeCalls
  import opened Backing
  import opened Systems
  import opened SystemInvariant
  import opened Forever
  import opened Acceptance

  ghost predicate AllLawful(y: System) {
    forall k :: k in y.platform.volumes ==> Lawful(y.cfg, y.platform.volumes[k].spec)
  }

  /** The volumes of `t` are those of `s`, with their specifications. */
  ghost predicate SameSpecs(s: Platform, t: Platform) {
    t.volumes.Keys == s.volumes.Keys && forall k :: k in s.volumes ==> t.volumes[k].spec == s.volumes[k].spec
  }

  lemma OnlyCreateAdds(cfg: Config, p: Principal, op: Op, r: Request, newID: string, s: Platform)
    requires PlatformOk(cfg, s) && Fresh(s, newID) && p.role != "node"
    ensures var t := Apply(cfg, p, op, r, newID, s).state;
            SameSpecs(s, t)
            || (op == CreateVolume && p.role == "controller" && MayCreate(cfg, p, r, s) && newID in t.volumes
                && SameSpecs(s, t.(volumes := t.volumes - {newID})) && t.volumes[newID].spec == Asked(p, r))
  {
    if op == CreateVolume && p.role == "controller" {
      CreateAcceptedIff(cfg, p, r, newID, s);
      RefusedCreates(cfg, p, r, newID, s);
    } else {
      OthersKeepSpecs(cfg, p, op, r, newID, s);
    }
    hide Apply, PlatformOk;
  }

  lemma RefusedCreates(cfg: Config, p: Principal, r: Request, newID: string, s: Platform)
    requires PlatformOk(cfg, s) && Fresh(s, newID) && p.role == "controller"
    ensures var ap := Apply(cfg, p, CreateVolume, r, newID, s);
            if ap.reply.Rejected? then ap.state == s
            else ap.state == s || (ap.state == s.(volumes := s.volumes[newID := ap.state.volumes[newID]])
                                   && newID in ap.state.volumes && ap.state.volumes[newID].spec == Asked(p, r))
  {
    hide PlatformOk, CreatableVolume;
  }

  lemma OthersKeepSpecs(cfg: Config, p: Principal, op: Op, r: Request, newID: string, s: Platform)
    requires p.role != "node" && (op != CreateVolume || p.role != "controller")
    ensures SameSpecs(s, Apply(cfg, p, op, r, newID, s).state)
  {
    hide ValidID, Attachable, ResizeAllowed;
  }

  lemma NodeCallsKeepSpecs(cfg: Config, i: string, q: (Op, Request), s: Platform)
    ensures SameSpecs(s, NodeApply(cfg, i, q, s).state)
  {
    hide ValidID, ProofMatches;
  }

  lemma ShadowsKeepSpecs(s: Platform, t: Platform)
    requires Shadows(s, t)
    ensures SameSpecs(s, t)
  {
  }

  lemma LawfulStill(y: System, z: System)
    requires AllLawful(y) && SameSpecs(y.platform, z.platform) && z.cfg.zones == y.cfg.zones
    ensures AllLawful(z)
  {
    hide ValidID;
    forall k | k in z.platform.volumes ensures Lawful(z.cfg, z.platform.volumes[k].spec) {
      assert Lawful(y.cfg, y.platform.volumes[k].spec);
    }
  }

  lemma CallStaysLawful(y: System, e: Event)
    requires Inv(y) && AllLawful(y) && e.ApiCall?
    ensures AllLawful(Step(y, e))
  {
    hide PlatformOk, NodesFit, Backed, Shadows, Apply, Fresh, ValidID, SameSpecs;
    var s, z := y.platform, Step(y, e);
    assert SameSpecs(s, s) by { ItsOwnSpecs(s); }
    if z != y { OnlyCreateAdds(y.cfg, e.principal, e.op, e.request, e.newID, s); }
    if SameSpecs(s, z.platform) { LawfulStill(y, z); } else { OneMoreLawful(y, z, e.newID); }
  }

  lemma ItsOwnSpecs(s: Platform)
    ensures SameSpecs(s, s)
  {
  }

  lemma OneMoreLawful(y: System, z: System, k: string)
    requires AllLawful(y) && z.cfg.zones == y.cfg.zones && k in z.platform.volumes
    requires SameSpecs(y.platform, z.platform.(volumes := z.platform.volumes - {k}))
    requires Lawful(y.cfg, z.platform.volumes[k].spec)
    ensures AllLawful(z)
  {
    hide ValidID;
    forall j | j in z.platform.volumes ensures Lawful(z.cfg, z.platform.volumes[j].spec) {
      assert j != k ==> j in y.platform.volumes && Lawful(y.cfg, y.platform.volumes[j].spec);
    }
  }

  lemma StepStaysLawful(y: System, e: Event)
    requires Inv(y) && AllLawful(y)
    ensures AllLawful(Step(y, e))
  {
    hide PlatformOk, NodesFit, Backed, Apply, NodeApply, VolumeTurned, AttachmentTurned, HostTurned, Answered, Pending,
         Begin, Saved, Fresh, Shadows, SameSpecs, AllLawful;
    StepZones(y, e);
    ItsOwnSpecs(y.platform);
    ShadowsKeepSpecs(y.platform, Current(y));
    if e.ApiCall? {
      CallStaysLawful(y, e);
    } else {
      if e.NodeCalls? && e.node in y.nodes && Pending(y.nodes[e.node]).Some? {
        NodeCallsKeepSpecs(y.cfg, e.node, Pending(y.nodes[e.node]).value, y.platform);
      }
      LawfulStill(y, Step(y, e));
    }
  }

  lemma {:induction false} RunStaysLawful(y: System, es: seq<Event>)
    requires Inv(y) && AllLawful(y)
    ensures AllLawful(Run(y, es))
    decreases |es|
  {
    hide Inv, Step, AllLawful;
    if es != [] {
      StepStaysLawful(y, es[0]);
      StepKeeps(y, es[0]);
      RunStaysLawful(Step(y, es[0]), es[1..]);
    }
  }

  /** In every reachable state every volume, tombstones included, has a well-formed name, a size within bounds, the
      one kind there is, a configured place, and one of the three forms. */
  lemma EveryVolumeIsLawful(y0: System, es: seq<Event>, k: string)
    requires Init(y0) && k in Run(y0, es).platform.volumes
    ensures Lawful(Run(y0, es).cfg, Run(y0, es).platform.volumes[k].spec)
  {
    hide Run, Lawful;
    InitHolds(y0);
    assert AllLawful(y0);
    RunStaysLawful(y0, es);
  }
}
