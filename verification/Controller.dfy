/** The CSI controller adapter: it turns the platform's answers into CSI replies, and says OK only when the work is
    done. */
module Controllers {
  import opened Model
  import opened Calls
  import opened Invariants
  import opened Wire
  import opened Topologies
  import opened Audit
  import opened Engines

  datatype Csi<+T> = Answer(value: T) | Failure(code: Code)

  // ----- replies, given the platform's answers -----

  datatype CreatedVolume = CreatedVolume(id: string, capacity: int, place: Place)

  function CreateReply(out: Reply): Csi<CreatedVolume> {
    if out.Rejected? then Failure(out.code)
    else if out.volume.None? then Failure(Unavailable)
    else
      var v := out.volume.value;
      if v.state != AVAILABLE || v.lastError != Clear then Failure(Aborted)
      else Answer(CreatedVolume(v.id, v.size, Place(v.spec.region, v.spec.zone)))
  }

  function DeleteReply(out: Reply): Csi<()> {
    if out.Rejected? then Failure(out.code)
    else if out.volume.Some? && out.volume.value.state != DELETED then Failure(Aborted)
    else Answer(())
  }

  function PublishReply(out: Reply): Csi<map<string, string>> {
    if out.Rejected? then Failure(out.code)
    else if out.attachment.None? then Failure(Unavailable)
    else
      var a := out.attachment.value;
      if a.state != ATTACHED || a.lastError != Clear then Failure(Aborted) else Answer(ContextOf(a))
  }

  function UnpublishReply(out: Reply): Csi<()> {
    if out.Rejected? then Failure(out.code)
    else if out.attachment.Some? && out.attachment.value.state != DETACHED then Failure(Aborted)
    else Answer(())
  }

  datatype ExpandedVolume = ExpandedVolume(capacity: int, onNode: bool)

  function ExpandReply(out: Reply, required: int): Csi<ExpandedVolume> {
    if out.Rejected? then Failure(out.code)
    else if out.volume.None? then Failure(Unavailable)
    else
      var v := out.volume.value;
      if v.size < required || v.lastError != Clear then Failure(Aborted)
      else Answer(ExpandedVolume(v.size, v.spec.mode == "mount"))
  }

  // ----- what an OK means on the platform -----

  /** Only a volume that was already there, and finished, is reported as created; and it has at least the bytes asked
      for. */
  lemma CreatedIsLargeEnough(cfg: Config, p: Principal, r: Request, newID: string, s: Platform)
    requires PlatformOk(cfg, s) && CreateReply(Apply(cfg, p, CreateVolume, r, newID, s).reply).Answer?
    ensures Apply(cfg, p, CreateVolume, r, newID, s).state == s
    ensures var c := CreateReply(Apply(cfg, p, CreateVolume, r, newID, s).reply).value;
            && c.id in s.volumes && r.size <= c.capacity && c.capacity == s.volumes[c.id].size
            && c.place == Place(r.region, r.zone)
            && s.volumes[c.id].spec == SpecOf(p, r) && Attachable(s.volumes[c.id])
  {
    var k := Named(s, p, r.name);
    assert k.Some? ==> VolumeOk(k.value, s.volumes[k.value]);
  }

  /** Unpublish says OK exactly when its scope, a node or all of them, has no live attachment of the volume left. */
  lemma UnpublishedMeansGone(cfg: Config, p: Principal, volume: string, node: string, newID: string, s: Platform)
    requires PlatformOk(cfg, s) && p.role == "controller"
    ensures var ap := Apply(cfg, p, DeleteAttachment, BLANK.(volume := volume, instance := node), newID, s);
            var x := Latest(s, volume, node);
            && (UnpublishReply(ap.reply).Answer? ==> ap.state == s)
            && (UnpublishReply(ap.reply).Answer? <==>
                 && (x.Some? ==>
                      && s.attachments[x.value].link.tenant == p.tenant
                      && s.attachments[x.value].link.cluster == p.cluster)
                 && NoneLive(s, volume, node))
  {
    EmptyUnused(cfg, s);
    var x := Latest(s, volume, node);
    if x.None? {
      NothingLatest(s, volume, node);
    } else {
      var a := s.attachments[x.value];
      assert !Live(a) ==> WithAttachment(s, x.value, a) == s;
      assert Live(a) ==> IsLiveOn(s, volume, x.value);
      forall y | IsLiveOn(s, volume, y) && InScope(s.attachments[y], volume, node) ensures y == x.value {
        LatestIsLive(cfg, s, volume, node, x.value, y);
      }
    }
  }

  ghost predicate NoneLive(s: Platform, volume: string, node: string) {
    forall x :: IsLiveOn(s, volume, x) ==> !InScope(s.attachments[x], volume, node)
  }

  /** A publish context is usable: in the state it was issued in, the use request that the target node builds from it
      is accepted, whatever the generation. */
  lemma PublishedIsUsable(cfg: Config, p: Principal, volume: string, node: string, newID: string, s: Platform,
                          use: string)
    requires ConfigOk(cfg) && PlatformOk(cfg, s) && p.role == "controller" && Fresh(s, newID) && ValidID(use)
    requires var out := Apply(cfg, p, CreateAttachment, BLANK.(volume := volume, instance := node), newID, s).reply;
             && PublishReply(out).Answer?
             && out.attachment.value.link.generation < UINT64_LIMIT
    ensures var ap := Apply(cfg, p, CreateAttachment, BLANK.(volume := volume, instance := node), newID, s);
            var q := ProofOf(volume, PublishReply(ap.reply).value);
            && volume in s.volumes && node in cfg.instances && q.Some?
            && var v, i := s.volumes[volume], cfg.instances[node];
               NodeCall(cfg, Principal("node", i.tenant, i.cluster, node), AcquireUse,
                        q.value.(use := use, mode := v.spec.mode, fsType := v.spec.fsType), ap.state).reply.Done?
  {
    hide NewIncarnation, ContextOf, ProofOf;
    var r := BLANK.(volume := volume, instance := node);
    var out := Apply(cfg, p, CreateAttachment, r, newID, s).reply;
    var a := out.attachment.value;
    NewlyAttachedIsPending(cfg, p, r, newID, s);
    assert AttachmentOk(cfg, s, a.id, s.attachments[a.id]) && VolumeOk(volume, s.volumes[volume]);
    ContextReadsBack(a);
  }

  /** A brand-new attachment is not reported as published. */
  lemma NewlyAttachedIsPending(cfg: Config, p: Principal, r: Request, newID: string, s: Platform)
    requires PlatformOk(cfg, s) && PublishReply(CreateAttachmentCall(cfg, p, r, newID, s).reply).Answer?
    ensures CreateAttachmentCall(cfg, p, r, newID, s).state == s
    ensures var a := CreateAttachmentCall(cfg, p, r, newID, s).reply.attachment.value;
            && r.volume in s.volumes && Attachable(s.volumes[r.volume]) && InstanceAllowed(cfg, p, r.instance)
            && a.id in s.attachments && s.attachments[a.id] == a
            && a.link.volume == r.volume && a.link.instance == cfg.instances[r.instance].id && !a.deleteRequested
  {
    if r.volume in s.volumes {
      assert VolumeOk(r.volume, s.volumes[r.volume]);
      var x := LiveOn(s, s.volumes[r.volume].id);
      assert x.Some? ==> AttachmentOk(cfg, s, x.value, s.attachments[x.value]);
    }
  }

  ghost function Heard(cfg: Config, p: Principal, op: Op, r: Request, newID: string, s: Platform,
                       fault: Fault): Applied {
    Carried(Apply(cfg, p, op, r, newID, s), s, fault)
  }

  /** The size a request asks for: one gibibyte unless it says otherwise. */
  function Requested(required: int): int { if required > 0 then required else 0x4000_0000 }

  /** The place of the first permitted candidate. */
  ghost predicate FirstPlace(candidates: seq<Segments>, requisite: seq<Segments>, place: Place) {
    exists n :: 0 <= n < |candidates| && IsFirst(candidates, requisite, n)
      && place == Place(At(candidates[n], REGION), At(candidates[n], ZONE))
  }

  /** What a caller asks for. Absent accessibility requirements and an absent capacity range are empty ones. */
  datatype CreateRequest = CreateRequest(
    name: string, capabilities: seq<Capability>, fromSource: bool, preferred: seq<Segments>, requisite: seq<Segments>,
    required: int, limit: int, parameters: map<string, string>)

  const KNOWN_PARAMETERS := {
    "type", "csi.storage.k8s.io/pvc/name", "csi.storage.k8s.io/pvc/namespace", "csi.storage.k8s.io/pv/name"
  }

  function KindOf(parameters: map<string, string>): string {
    if "type" in parameters then parameters["type"] else "standard"
  }

  /** Named, not a copy of anything, of one supported capability, placeable, and without negative sizes. */
  ghost predicate WellFormed(r: CreateRequest) {
    var candidates := r.preferred + r.requisite;
    && r.name != "" && r.capabilities != [] && !r.fromSource
    && ModeOf(r.capabilities[0]).Some?
    && (forall n :: 0 <= n < |r.capabilities| ==> ModeOf(r.capabilities[n]) == ModeOf(r.capabilities[0]))
    && (candidates == [] || !IsFirst(candidates, r.requisite, |candidates|))
    && 0 <= r.required && 0 <= r.limit
  }

  predicate OverLimit(r: CreateRequest) { r.limit > 0 && Requested(r.required) > r.limit }

  /** The place a request is sent to. */
  ghost predicate PlacedAt(r: CreateRequest, home: Place, place: Place) {
    if r.preferred + r.requisite == [] then place == home else FirstPlace(r.preferred + r.requisite, r.requisite, place)
  }

  /** The platform request that a create turns into. */
  function AskFor(r: CreateRequest, m: Mode, place: Place): Request {
    BLANK.(name := r.name, size := Requested(r.required), kind := KindOf(r.parameters),
           region := place.region, zone := place.zone, mode := m.mode, fsType := m.fsType)
  }

  class Controller {
    const api: Engine
    const principal: Principal
    const home: Place

    constructor (api: Engine, principal: Principal, home: Place)
      ensures this.api == api && this.principal == principal && this.home == home
    {
      this.api, this.principal, this.home := api, principal, home;
    }

    method Ask(op: Op, r: Request, newID: string, when: string, fault: Fault) returns (out: Reply)
      requires api.Valid() && Fresh(api.State(), newID) && api.log.sequence + 1 < SEQUENCE_LIMIT
      modifies api`volumes, api`attachments, api.log
      ensures api.Valid() && api.log.sequence <= old(api.log.sequence) + 1
      ensures Applied(out, api.State()) == Heard(api.cfg, principal, op, r, newID, old(api.State()), fault)
    {
      hide Apply, PlatformOk;
      if fault.Before? {
        return Rejected(Unavailable);
      }
      out := api.Call(principal, op, r, newID, when);
      if fault.After? {
        out := Rejected(Unavailable);
      }
    }

    /** Every capability must be supported, and be the same one. */
    method CommonMode(capabilities: seq<Capability>) returns (mode: Option<Mode>)
      requires capabilities != []
      ensures mode.Some? <==>
        && ModeOf(capabilities[0]).Some?
        && forall n :: 0 <= n < |capabilities| ==> ModeOf(capabilities[n]) == ModeOf(capabilities[0])
      ensures mode.Some? ==> mode == ModeOf(capabilities[0])
    {
      mode := ModeOf(capabilities[0]);
      if mode.None? {
        return;
      }
      for n := 0 to |capabilities|
        invariant mode == ModeOf(capabilities[0])
        invariant forall m :: 0 <= m < n ==> ModeOf(capabilities[m]) == mode
      {
        if ModeOf(capabilities[n]) != mode {
          return None;
        }
      }
    }

    /** Ranges over the parameters in any order. */
    method ReadKind(parameters: map<string, string>) returns (kind: Option<string>)
      ensures kind == if parameters.Keys <= KNOWN_PARAMETERS then Some(KindOf(parameters)) else None
    {
      var typ := "standard";
      var todo := parameters.Keys;
      while todo != {}
        invariant todo <= parameters.Keys
        invariant parameters.Keys - todo <= KNOWN_PARAMETERS
        invariant typ == if "type" in parameters && "type" !in todo then parameters["type"] else "standard"
        decreases todo
      {
        var k :| k in todo;
        if k == "type" {
          typ := parameters[k];
        } else if k !in KNOWN_PARAMETERS {
          assert k in parameters.Keys && k !in KNOWN_PARAMETERS;
          return None;
        }
        todo := todo - {k};
      }
      assert forall k :: k in parameters.Keys ==> k in parameters.Keys - todo;
      kind := Some(typ);
    }

    method CreateVolume(r: CreateRequest, newID: string, when: string, fault: Fault)
      returns (reply: Csi<CreatedVolume>, ghost asked: Option<Request>)
      requires api.Valid() && Fresh(api.State(), newID) && api.log.sequence + 1 < SEQUENCE_LIMIT
      modifies api`volumes, api`attachments, api.log
      ensures api.Valid()
      ensures asked.Some? <==> WellFormed(r) && !OverLimit(r) && r.parameters.Keys <= KNOWN_PARAMETERS
      ensures asked.None? ==>
        && reply == Failure(if WellFormed(r) && OverLimit(r) then OutOfRange else InvalidArgument)
        && api.State() == old(api.State())
      ensures asked.Some? ==>
        && asked.value == AskFor(r, ModeOf(r.capabilities[0]).value, Place(asked.value.region, asked.value.zone))
        && PlacedAt(r, home, Place(asked.value.region, asked.value.zone))
        && var heard := Heard(api.cfg, principal, Op.CreateVolume, asked.value, newID, old(api.State()), fault);
           reply == CreateReply(heard.reply) && api.State() == heard.state
      ensures reply.Answer? ==>
        && asked.Some? && api.State() == old(api.State()) && reply.value.id in api.State().volumes
        && var v := api.State().volumes[reply.value.id];
           && v.spec == SpecOf(principal, asked.value) && Attachable(v)
           && reply.value.place == Place(v.spec.region, v.spec.zone)
           && reply.value.capacity == v.size && Requested(r.required) <= v.size
    {
      hide PlatformOk, CreatableVolume, Satisfies, Permitted, Apply;
      asked := None;
      if r.name == "" || |r.capabilities| == 0 || r.fromSource {
        return Failure(InvalidArgument), None;
      }
      var mode := CommonMode(r.capabilities);
      if mode.None? {
        return Failure(InvalidArgument), None;
      }
      var place := Choose(r.preferred, r.requisite, home);
      if place.None? || r.required < 0 || r.limit < 0 {
        return Failure(InvalidArgument), None;
      }
      var size := if r.required > 0 then r.required else 0x4000_0000;
      if r.limit > 0 && size > r.limit {
        return Failure(OutOfRange), None;
      }
      var kind := ReadKind(r.parameters);
      if kind.None? {
        return Failure(InvalidArgument), None;
      }
      var q := BLANK.(name := r.name, size := size, kind := kind.value, region := place.value.region,
                      zone := place.value.zone, mode := mode.value.mode, fsType := mode.value.fsType);
      asked := Some(q);
      ghost var s := api.State();
      var out := Ask(Op.CreateVolume, q, newID, when, fault);
      reply := CreateReply(out);
      if reply.Answer? { CreatedIsLargeEnough(api.cfg, principal, q, newID, s); }
    }

    method DeleteVolume(volume: string, newID: string, when: string, fault: Fault) returns (reply: Csi<()>)
      requires api.Valid() && Fresh(api.State(), newID) && api.log.sequence + 1 < SEQUENCE_LIMIT
      modifies api`volumes, api`attachments, api.log
      ensures api.Valid()
      ensures volume == "" ==> reply == Failure(InvalidArgument) && api.State() == old(api.State())
      ensures volume != "" ==>
        var heard := Heard(api.cfg, principal, Op.DeleteVolume, BLANK.(id := volume), newID, old(api.State()), fault);
        reply == DeleteReply(heard.reply) && api.State() == heard.state
      ensures reply.Answer? ==> volume !in api.State().volumes || api.State().volumes[volume].state == DELETED
    {
      if volume == "" {
        return Failure(InvalidArgument);
      }
      ghost var s := api.State();
      var out := Ask(Op.DeleteVolume, BLANK.(id := volume), newID, when, fault);
      reply := DeleteReply(out);
    }

    method ControllerPublishVolume(volume: string, node: string, capability: Capability, readOnly: bool,
                                   newID: string, when: string, first: Fault, second: Fault)
      returns (reply: Csi<map<string, string>>)
      requires api.Valid() && Fresh(api.State(), newID) && api.log.sequence + 2 < SEQUENCE_LIMIT
      modifies api`volumes, api`attachments, api.log
      ensures api.Valid()
      ensures reply.Answer? ==>
        && api.State() == old(api.State()) && node != "" && !readOnly
        && volume in api.State().volumes
        && ModeOf(capability)
            == Some(Mode(api.State().volumes[volume].spec.mode, api.State().volumes[volume].spec.fsType))
        && reply == PublishReply(Apply(api.cfg, principal, CreateAttachment, BLANK.(volume := volume, instance := node),
                                       newID, api.State()).reply)
      ensures volume == "" || node == "" || readOnly || ModeOf(capability).None? ==>
        reply == Failure(InvalidArgument) && api.State() == old(api.State())
      ensures var s := old(api.State());
        var shown := Heard(api.cfg, principal, Op.GetVolume, BLANK.(id := volume), newID, s, first).reply;
        && volume != "" && node != "" && !readOnly && ModeOf(capability).Some?
        && (shown.Rejected? || ModeOf(capability) != Some(Mode(s.volumes[volume].spec.mode,
            s.volumes[volume].spec.fsType)))
        ==> reply == Failure(if shown.Rejected? then shown.code else InvalidArgument) && api.State() == s
      ensures var s := old(api.State());
        && volume != "" && node != "" && !readOnly && first.Fine?
        && Apply(api.cfg, principal, Op.GetVolume, BLANK.(id := volume), newID, s).reply.Done?
        && ModeOf(capability) == Some(Mode(s.volumes[volume].spec.mode, s.volumes[volume].spec.fsType))
        ==> var heard := Heard(api.cfg, principal, CreateAttachment, BLANK.(volume := volume, instance := node), newID,
            s, second);
            reply == PublishReply(heard.reply) && api.State() == heard.state
    {
      hide PlatformOk;
      if volume == "" || node == "" {
        return Failure(InvalidArgument);
      }
      var mode := ModeOf(capability);
      if mode.None? || readOnly {
        return Failure(InvalidArgument);
      }
      ghost var s := api.State();
      var shown := Ask(Op.GetVolume, BLANK.(id := volume), newID, when, first);
      GettingChangesNothing(api.cfg, principal, volume, newID, s);
      if shown.Rejected? {
        return Failure(shown.code);
      }
      if shown.volume.value.spec.mode != mode.value.mode || shown.volume.value.spec.fsType != mode.value.fsType {
        return Failure(InvalidArgument);
      }
      var out := Ask(Op.CreateAttachment, BLANK.(volume := volume, instance := node), newID, when, second);
      reply := PublishReply(out);
      if reply.Answer? {
        PublishedWasThere(api.cfg, principal, BLANK.(volume := volume, instance := node), newID, s);
      }
    }

    method ControllerUnpublishVolume(volume: string, node: string, newID: string, when: string, fault: Fault)
      returns (reply: Csi<()>)
      requires api.Valid() && Fresh(api.State(), newID) && api.log.sequence + 1 < SEQUENCE_LIMIT
      modifies api`volumes, api`attachments, api.log
      ensures api.Valid()
      ensures volume == "" ==> reply == Failure(InvalidArgument) && api.State() == old(api.State())
      ensures volume != "" ==>
        var heard := Heard(api.cfg, principal, DeleteAttachment, BLANK.(volume := volume, instance := node), newID,
            old(api.State()), fault);
        reply == UnpublishReply(heard.reply) && api.State() == heard.state
      ensures reply.Answer? && principal.role == "controller" ==> NoneLive(api.State(), volume, node)
    {
      hide PlatformOk;
      if volume == "" {
        return Failure(InvalidArgument);
      }
      ghost var s := api.State();
      var out := Ask(DeleteAttachment, BLANK.(volume := volume, instance := node), newID, when, fault);
      reply := UnpublishReply(out);
      if principal.role == "controller" {
        UnpublishedMeansGone(api.cfg, principal, volume, node, newID, s);
      }
    }

    method ControllerExpandVolume(volume: string, required: int, limit: int, newID: string, when: string, fault: Fault)
      returns (reply: Csi<ExpandedVolume>)
      requires api.Valid() && Fresh(api.State(), newID) && api.log.sequence + 1 < SEQUENCE_LIMIT
      modifies api`volumes, api`attachments, api.log
      ensures api.Valid()
      ensures volume == "" || required <= 0 || (limit > 0 && required > limit) ==>
        && reply == Failure(if volume == "" || required <= 0 then InvalidArgument else OutOfRange)
        && api.State() == old(api.State())
      ensures reply.Answer? ==>
        && volume in api.State().volumes
        && var v := api.State().volumes[volume];
           && Owned(principal, v) && v.desired == required <= v.size == reply.value.capacity
           && (limit > 0 ==> required <= limit)
           && reply.value.onNode == (v.spec.mode == "mount")
      ensures volume != "" && required > 0 && (limit > 0 ==> required <= limit) ==>
        var heard := Heard(api.cfg, principal, ResizeVolume, BLANK.(id := volume, size := required), newID,
            old(api.State()), fault);
        reply == ExpandReply(heard.reply, required) && api.State() == heard.state
    {
      if volume == "" || required <= 0 {
        return Failure(InvalidArgument);
      }
      if limit > 0 && required > limit {
        return Failure(OutOfRange);
      }
      var out := Ask(ResizeVolume, BLANK.(id := volume, size := required), newID, when, fault);
      reply := ExpandReply(out, required);
    }
  }

  lemma GettingChangesNothing(cfg: Config, p: Principal, volume: string, newID: string, s: Platform)
    ensures var ap := Apply(cfg, p, Op.GetVolume, BLANK.(id := volume), newID, s);
            && ap.state == s
            && (ap.reply.Done? ==> volume in s.volumes && ap.reply.volume == Some(s.volumes[volume]))
  {
  }

  lemma PublishedWasThere(cfg: Config, p: Principal, r: Request, newID: string, s: Platform)
    requires PlatformOk(cfg, s) && PublishReply(Apply(cfg, p, CreateAttachment, r, newID, s).reply).Answer?
    ensures Apply(cfg, p, CreateAttachment, r, newID, s).state == s
  {
    NewlyAttachedIsPending(cfg, p, r, newID, s);
  }
}
