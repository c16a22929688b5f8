/** The upper bound of a repeated create: the adapter checks a caller's limit against the size it asks for, not
    against what the volume has become. This says exactly which histories make the difference. */
module Limits {
  import opened Model
  import opened Calls
  import opened Invariants
  import opened Nodes
  import opened NodeCalls
  import opened Backing
  import opened Systems
  import opened SystemInvariant
  import opened Forever
  import opened Controllers

  /** An accepted resize of this volume to more than `limit`. */
  ghost predicate ResizesBeyond(y: System, e: Event, k: string, limit: int) {
    && e.ApiCall? && e.op == ResizeVolume && e.request.id == k && e.request.size > limit
    && y.txn.None? && e.principal.role != "node" && Fresh(y.platform, e.newID)
    && Apply(y.cfg, e.principal, e.op, e.request, e.newID, y.platform).reply.Done?
  }

  ghost predicate ResizedBeyond(y: System, es: seq<Event>, k: string, limit: int)
    decreases |es|
  {
    es != [] && (ResizesBeyond(y, es[0], k, limit) || ResizedBeyond(Step(y, es[0]), es[1..], k, limit))
  }

  // ----- what moves a goal -----

  /** A call moves the goal of an existing volume only by resizing it, and then to the requested size. */
  lemma GoalAfterCall(cfg: Config, p: Principal, op: Op, r: Request, newID: string, s: Platform, k: string)
    requires VolumesOk(s) && Fresh(s, newID) && p.role != "node" && k in s.volumes
    ensures var ap := Apply(cfg, p, op, r, newID, s);
            && k in ap.state.volumes
            && ap.state.volumes[k].desired
            == if op == ResizeVolume && r.id == k && ap.reply.Done? then r.size else s.volumes[k].desired
  {
    hide VolumeOk, CreatableVolume, ValidID;
  }

  /** An accepted resize never lowers the goal. */
  lemma ResizeRaises(cfg: Config, p: Principal, r: Request, newID: string, s: Platform)
    requires p.role != "node" && Apply(cfg, p, ResizeVolume, r, newID, s).reply.Done?
    ensures r.id in s.volumes && s.volumes[r.id].desired <= r.size
  {
  }

  lemma GoalAfterNodeCall(cfg: Config, i: string, q: (Op, Request), s: Platform, k: string)
    requires k in s.volumes
    ensures var t := NodeApply(cfg, i, q, s).state; k in t.volumes && t.volumes[k].desired == s.volumes[k].desired
  {
    hide ProofMatches, ValidID;
  }

  lemma GoalApiStep(y: System, e: Event, k: string, limit: int)
    requires Inv(y) && k in y.platform.volumes && e.ApiCall?
    ensures k in Step(y, e).platform.volumes
    ensures Step(y, e).platform.volumes[k].desired > limit
        <==> y.platform.volumes[k].desired > limit || ResizesBeyond(y, e, k, limit)
  {
    hide AttachmentsOk, GenerationsDistinct, NamesUnique, VolumeOk, Backed, Shadows, NodesFit, Apply, Fresh;
    var p, op, r, newID := e.principal, e.op, e.request, e.newID;
    if y.txn.None? && p.role != "node" && Fresh(y.platform, newID) {
      GoalAfterCall(y.cfg, p, op, r, newID, y.platform, k);
      if op == ResizeVolume && Apply(y.cfg, p, op, r, newID, y.platform).reply.Done? {
        ResizeRaises(y.cfg, p, r, newID, y.platform);
      }
    }
  }

  lemma GoalShadowed(s: Platform, t: Platform, k: string)
    requires Shadows(s, t) && k in s.volumes
    ensures k in t.volumes && t.volumes[k].desired == s.volumes[k].desired
  {
  }

  lemma GoalStays(y: System, e: Event, k: string)
    requires Inv(y) && k in y.platform.volumes && !e.ApiCall?
    ensures k in Step(y, e).platform.volumes
    ensures Step(y, e).platform.volumes[k].desired == y.platform.volumes[k].desired
  {
    hide Sound, Backed, Shadows, NodesFit, NodeApply, VolumeTurned, AttachmentTurned, HostTurned, Answered, Begin,
        Saved, Pending,
         Activated, Fresh, Apply;
    GoalShadowed(y.platform, Current(y), k);
    if e.NodeCalls? && e.node in y.nodes && Pending(y.nodes[e.node]).Some? {
      GoalAfterNodeCall(y.cfg, e.node, Pending(y.nodes[e.node]).value, y.platform, k);
    }
  }

  lemma GoalStep(y: System, e: Event, k: string, limit: int)
    requires Inv(y) && k in y.platform.volumes
    ensures k in Step(y, e).platform.volumes
    ensures Step(y, e).platform.volumes[k].desired > limit
        <==> y.platform.volumes[k].desired > limit || ResizesBeyond(y, e, k, limit)
  {
    hide Inv, Step;
    if e.ApiCall? { GoalApiStep(y, e, k, limit); } else { GoalStays(y, e, k); }
  }

  lemma {:induction false} GoalOverRun(y: System, es: seq<Event>, k: string, limit: int)
    requires Inv(y) && k in y.platform.volumes
    ensures k in Run(y, es).platform.volumes
    ensures Run(y, es).platform.volumes[k].desired > limit
        <==> y.platform.volumes[k].desired > limit || ResizedBeyond(y, es, k, limit)
    decreases |es|
  {
    hide Inv, Step, ResizesBeyond;
    if es != [] {
      GoalStep(y, es[0], k, limit);
      StepKeeps(y, es[0]);
      GoalOverRun(Step(y, es[0]), es[1..], k, limit);
    }
  }

  /** What a create that is answered within `limit` shows of its volume. */
  ghost predicate WithinLimit(y: System, p: Principal, r: Request, newID: string, limit: int) {
    var out := Apply(y.cfg, p, CreateVolume, r, newID, y.platform).reply;
    && p.role == "controller" && y.txn.None? && Fresh(y.platform, newID) && out.Done?
    && if Named(y.platform, p, r.name).None? then r.size <= limit
       else out.volume.Some? && out.volume.value.desired <= limit
  }

  /** After a create that kept to its limit, the same create reports more than that limit if and only if somebody has
      since resized the volume beyond it. */
  lemma LimitExceededIff(y: System, p: Principal, r: Request, newID: string, limit: int, es: seq<Event>,
                         otherID: string)
    requires Inv(y) && WithinLimit(y, p, r, newID, limit)
    requires var z := Run(Step(y, ApiCall(p, CreateVolume, r, newID)), es);
             CreateReply(Apply(z.cfg, p, CreateVolume, r, otherID, z.platform).reply).Answer?
    ensures var first := Apply(y.cfg, p, CreateVolume, r, newID, y.platform).reply.volume;
            var u := Step(y, ApiCall(p, CreateVolume, r, newID));
            var z := Run(u, es);
            var again := CreateReply(Apply(z.cfg, p, CreateVolume, r, otherID, z.platform).reply);
            && first.Some? && again.value.id == first.value.id
            && (again.value.capacity > limit <==> ResizedBeyond(u, es, first.value.id, limit))
  {
    hide Inv, Run, Step, Apply, ResizedBeyond;
    var u := Step(y, ApiCall(p, CreateVolume, r, newID));
    var k := CreatedNow(y, p, r, newID);
    FirstWithin(y, p, r, newID, limit);
    StepKeeps(y, ApiCall(p, CreateVolume, r, newID));
    RunKeeps(u, es);
    GoalOverRun(u, es, k, limit);
    CreationIsIdempotent(y, p, r, newID, es, otherID);
    AvailableAtGoal(Run(u, es), k);
  }

  lemma FirstWithin(y: System, p: Principal, r: Request, newID: string, limit: int)
    requires WithinLimit(y, p, r, newID, limit)
    ensures var first := Apply(y.cfg, p, CreateVolume, r, newID, y.platform).reply.volume;
            first.Some? && first.value.desired <= limit
  {
    hide CreatableVolume, Fresh;
  }

  lemma AvailableAtGoal(z: System, k: string)
    requires Inv(z) && k in z.platform.volumes && z.platform.volumes[k].state == AVAILABLE
    ensures z.platform.volumes[k].id == k && z.platform.volumes[k].size == z.platform.volumes[k].desired
  {
    hide AttachmentsOk, GenerationsDistinct, NamesUnique, NodesFit, Backed, Shadows;
    assert VolumeOk(k, z.platform.volumes[k]);
  }
}
