/** The node agent as it runs: one RPC at a time, over a journal, a host and an API it may fail to reach. Each RPC is
    proved to be exactly its sequence of small steps, including the requests it sends. */
module Agents {
  import opened Model
  import opened Calls
  import opened Invariants
  import opened Wire
  import opened Hosts
  import opened Nodes
  import opened NodeCalls
  import opened Audit
  import opened Engines

  function BeginTurn(x: Exchange, c: Rpc): Exchange { x.(node := Begin(x.node, c)) }

  function SaveTurn(x: Exchange, f: Fault): (r: Exchange)
    ensures x.node.pc.Idle? ==> r == x
  {
    x.(node := Saved(x.node, f))
  }

  function HostTurn(x: Exchange, f: Fault): (r: Exchange)
    ensures x.node.pc.Idle? ==> r == x
  {
    x.(node := HostStep(x.node, f))
  }

  // ----- small steps, one at a time -----

  lemma Begins(x: Exchange, c: Rpc, pc: PC)
    requires Begin(x.node, c).pc == pc
    ensures BeginTurn(x, c) == x.(node := x.node.(pc := pc))
  {
  }

  // The caller's half of each API call: where the agent goes with the answer it hears.

  function Answering(x: Exchange, heard: Applied, next: PC): Exchange {
    Exchange(heard.state, x.node.(pc := if heard.reply.Rejected? then Idle(heard.reply.code) else next))
  }

  function Hears(cfg: Config, i: string, x: Exchange, f: Fault, op: Op, r: Request): Applied {
    Carried(NodeApply(cfg, i, (op, r), x.platform), x.platform, f)
  }

  lemma ReleasingTurns(cfg: Config, i: string, x: Exchange, f: Fault, k: string)
    requires x.node.pc == Releasing(k) && k in x.node.journal
    ensures CallTurn(cfg, i, x, f) == Answering(x, Hears(cfg, i, x, f, ReleaseUse, x.node.journal[k].proof), Erasing(k))
  {
    hide NodeApply;
  }

  lemma MarkingTurns(cfg: Config, i: string, x: Exchange, f: Fault, k: string)
    requires x.node.pc == Marking(k) && k in x.node.journal
    ensures CallTurn(cfg, i, x, f)
        == Answering(x, Hears(cfg, i, x, f, MarkInitialized, x.node.journal[k].proof), Finishing(k))
  {
    hide NodeApply;
  }

  lemma PermittingTurns(cfg: Config, i: string, x: Exchange, f: Fault, k: string, t: string, w: Target)
    requires x.node.pc == Permitting(k, t, w) && k in x.node.journal
    ensures CallTurn(cfg, i, x, f)
         == Answering(x, Hears(cfg, i, x, f, RecordPublish, x.node.journal[k].proof.(podUID := w.podUID)),
             Noting(k, t, w))
  {
    hide NodeApply;
  }

  function AfterCheck(out: Reply, k: string, required: int, limit: int): PC {
    if out.Rejected? || out.volume.None? then Idle(Unavailable)
    else if out.volume.value.size < required then Idle(FailedPrecondition)
    else if limit > 0 && out.volume.value.size > limit then Idle(OutOfRange)
    else Growing(k, out.volume.value, required, limit)
  }

  lemma CheckingTurns(cfg: Config, i: string, x: Exchange, f: Fault, k: string, required: int, limit: int)
    requires x.node.pc == Checking(k, required, limit) && k in x.node.journal
    ensures var heard := Hears(cfg, i, x, f, CheckUse, x.node.journal[k].proof);
            CallTurn(cfg, i, x, f) == Answering(x, heard, AfterCheck(heard.reply, k, required, limit))
  {
    hide NodeApply;
  }

  function AfterAcquire(out: Reply, j: Journal, p: Request, path: string): PC {
    if out.Rejected? || out.volume.None? then Idle(Unavailable)
    else if out.volume.value.spec.mode != p.mode || out.volume.value.spec.fsType != p.fsType then Idle(InvalidArgument)
    else Recording(p.volume, StageRecord(j, p, path, out.volume.value))
  }

  lemma AcquiringTurns(cfg: Config, i: string, x: Exchange, f: Fault, p: Request, path: string)
    requires x.node.pc == Acquiring(p, path)
    ensures var heard := Hears(cfg, i, x, f, AcquireUse, p);
            CallTurn(cfg, i, x, f) == Answering(x, heard, AfterAcquire(heard.reply, x.node.journal, p, path))
  {
    hide NodeApply, StageRecord;
  }

  lemma RecordingTurns(x: Exchange, f: Fault)
    requires x.node.pc.Recording?
    ensures var n := x.node;
            SaveTurn(x, f) == x.(node := n.(journal := if f.Before? then n.journal
                else n.journal[n.pc.volume := n.pc.stage],
                                           pc := if f.Fine? then Mounting(n.pc.volume) else Idle(Unavailable)))
  {
  }

  lemma NotingTurns(x: Exchange, f: Fault, k: string, t: string, w: Target)
    requires x.node.pc == Noting(k, t, w) && k in x.node.journal
    ensures var n := x.node;
            var e := n.journal[k];
            SaveTurn(x, f) == x.(node := n.(journal := if f.Before? then n.journal
                else n.journal[k := e.(targets := e.targets[t := w])],
                                           pc := if f.Fine? then Binding(k, t) else Idle(Unavailable)))
  {
  }

  lemma Writes(x: Exchange, f: Fault, j: Journal, next: PC)
    requires Saves(x.node.pc) && Draft(x.node) == j && AfterSave(x.node) == next
    ensures SaveTurn(x, f) == x.(node := x.node.(journal := if f.Before? then x.node.journal else j,
                                                pc := if f.Fine? then next else Idle(Unavailable)))
  {
    hide Draft, AfterSave;
  }

  lemma Effects(x: Exchange, f: Fault, done: Hosted, h: Hosted, next: PC)
    requires HostEffect(x.node) == Some(done) && h == Reached(x.node.mounts, done, f) && AfterHost(x.node.pc) == next
    ensures HostTurn(x, f)
        == x.(node := x.node.(mounts := h.mounts, pc := if h.error == NoError then next else Idle(Unavailable)))
  {
    hide HostEffect, AfterHost, Reached;
  }

  // ----- loops over the journal -----

  method FindOther(j: Journal, volume: string, path: string) returns (owned: bool)
    ensures owned == OwnedByOther(j, volume, path)
  {
    var todo := j.Keys;
    while todo != {}
      invariant todo <= j.Keys
      invariant forall k :: k in j && k !in todo && k != volume ==>
        j[k].path != path && (path in j[k].targets ==> j[k].targets[path].podUID == "")
      decreases todo
    {
      var k :| k in todo;
      if k != volume && (j[k].path == path || (path in j[k].targets && j[k].targets[path].podUID != "")) {
        return true;
      }
      todo := todo - {k};
    }
    owned := false;
  }

  method FindTaken(j: Journal, volume: string, target: string) returns (taken: bool)
    ensures taken == TargetTaken(j, volume, target)
  {
    var todo := j.Keys;
    while todo != {}
      invariant todo <= j.Keys
      invariant forall k :: k in j && k !in todo ==> j[k].path != target && (k != volume ==> target !in j[k].targets)
      decreases todo
    {
      var k :| k in todo;
      if j[k].path == target || (k != volume && target in j[k].targets) {
        return true;
      }
      todo := todo - {k};
    }
    taken := false;
  }

  class Agent {
    const id: string
    const hash: UseHash
    const api: Engine
    const host: Simulated
    var journal: Journal

    constructor (id: string, hash: UseHash, api: Engine)
      ensures this.id == id && this.hash == hash && this.api == api
      ensures fresh(host) && host.mounts == map[] && journal == map[]
    {
      this.id, this.hash, this.api := id, hash, api;
      host := new Simulated();
      journal := map[];
    }

    /** The platform and this node, which has just answered `code`. */
    function Sight(code: Code): Exchange
      reads this, host, api
    {
      Exchange(api.State(), Node(hash, journal, host.mounts, Idle(code)))
    }

    ghost predicate Ready(calls: nat)
      reads api, api.log
    {
      api.Valid() && api.log.sequence + calls < SEQUENCE_LIMIT
    }

    method Ask(op: Op, r: Request, when: string, fault: Fault) returns (out: Reply)
      requires Ready(1)
      modifies api`volumes, api`attachments, api.log
      ensures api.Valid() && api.log.sequence <= old(api.log.sequence) + 1 && out != Rejected(OK)
      ensures Applied(out, api.State()) == Hears(api.cfg, id, old(Sight(OK)), fault, op, r)
    {
      hide PlatformOk, NodeCall;
      if fault.Before? {
        return Rejected(Unavailable);
      }
      RefusalsAreNotOk(api.cfg, id, (op, r), api.State());
      out := api.Call(IdentityOf(api.cfg, id), op, r, "", when);
      if fault.After? {
        out := Rejected(Unavailable);
      }
    }

    method Save(j: Journal, fault: Fault) returns (ok: bool)
      modifies this
      ensures ok == fault.Fine? && journal == if fault.Before? then old(journal) else j
    {
      if !fault.Before? {
        journal := j;
      }
      ok := fault.Fine?;
    }

    method NodeUnpublishVolume(volume: string, target: string, targetOk: bool, unmounted: Fault, saved: Fault)
      returns (code: Code)
      modifies this, host
      ensures Sight(code) == SaveTurn(HostTurn(BeginTurn(old(Sight(OK)), UnpublishVolume(volume, target, targetOk)),
          unmounted), saved)
    {
      if volume == "" || !targetOk {
        return InvalidArgument;
      }
      var stages := journal;
      if volume !in stages {
        return OK;
      }
      var s := stages[volume];
      if target !in s.targets {
        return OK;
      }
      var err := host.Unmount(target, unmounted);
      if err != NoError {
        return Unavailable;
      }
      s := s.(targets := s.targets - {target});
      stages := stages[volume := s];
      var ok := Save(stages, saved);
      code := if ok then OK else Unavailable;
    }

    method AdmitUnstage(volume: string, path: string, pathOk: bool) returns (next: PC)
      ensures next == Begin(Sight(OK).node, UnstageVolume(volume, path, pathOk)).pc
      ensures next.Idle? || (volume in journal && next == Unmounting(volume))
    {
      if volume == "" || !pathOk {
        return Idle(InvalidArgument);
      }
      var stages := journal;
      if volume !in stages {
        return Idle(OK);
      }
      var s := stages[volume];
      if s.path != path {
        return Idle(InvalidArgument);
      }
      if s.targets != map[] {
        return Idle(FailedPrecondition);
      }
      next := Unmounting(volume);
    }

    method NodeUnstageVolume(volume: string, path: string, pathOk: bool, when: string, unmounted: Fault,
                             released: Fault, saved: Fault)
      returns (code: Code)
      requires Ready(1)
      modifies this, host, api`volumes, api`attachments, api.log
      ensures api.Valid()
      ensures Sight(code)
           == SaveTurn(CallTurn(api.cfg, id,
                HostTurn(BeginTurn(old(Sight(OK)), UnstageVolume(volume, path, pathOk)), unmounted), released), saved)
    {
      hide BeginTurn, Begin, BeginUnstage, NodeApply, PlatformOk, Pending, Carried, HostStep, Saved, SaveTurn,
          HostTurn, Answered, CallTurn, Unmounted, Reached;
      ghost var x0 := Sight(OK);
      ghost var x1 := BeginTurn(x0, UnstageVolume(volume, path, pathOk));
      var next := AdmitUnstage(volume, path, pathOk);
      Begins(x0, UnstageVolume(volume, path, pathOk), next);
      if next.Idle? {
        return next.code;
      }
      var stages := journal;
      var s := stages[volume];
      var err := host.Unmount(s.path, unmounted);
      Effects(x1, unmounted, Unmounted(x1.node.mounts, s.path), Hosted(host.mounts, err), Releasing(volume));
      ghost var x2 := HostTurn(x1, unmounted);
      if err != NoError {
        return Unavailable;
      }
      var out := Ask(ReleaseUse, s.proof, when, released);
      ReleasingTurns(api.cfg, id, x2, released, volume);
      ghost var x3 := CallTurn(api.cfg, id, x2, released);
      if out.Rejected? {
        return out.code;
      }
      stages := stages - {volume};
      Writes(x3, saved, stages, Idle(OK));
      var ok := Save(stages, saved);
      code := if ok then OK else Unavailable;
    }

    method AdmitExpand(volume: string, path: string, pathOk: bool, required: int, limit: int) returns (next: PC)
      ensures next == Begin(Sight(OK).node, ExpandVolume(volume, path, pathOk, required, limit)).pc
      ensures next != Idle(OK)
      ensures next.Idle? || (volume in journal && next == Checking(volume, required, limit))
    {
      if required <= 0 || volume == "" || !pathOk {
        return Idle(InvalidArgument);
      }
      if volume !in journal || !journal[volume].ready {
        return Idle(NotFound);
      }
      var s := journal[volume];
      if s.path != path && path !in s.targets {
        return Idle(NotFound);
      }
      next := Checking(volume, required, limit);
    }

    method NodeExpandVolume(volume: string, path: string, pathOk: bool, required: int, limit: int, when: string,
                            checked: Fault, expanded: Fault, saved: Fault)
      returns (code: Code, capacity: int)
      requires Ready(1)
      modifies this, host, api`volumes, api`attachments, api.log
      ensures api.Valid()
      ensures Sight(code)
           == SaveTurn(HostTurn(CallTurn(api.cfg, id,
                BeginTurn(old(Sight(OK)), ExpandVolume(volume, path, pathOk, required, limit)), checked), expanded),
                    saved)
      ensures code == OK ==>
        && volume in journal && capacity == journal[volume].volume.size
        && required <= capacity && (limit > 0 ==> capacity <= limit)
    {
      capacity := 0;
      hide BeginTurn, Begin, BeginExpand, NodeApply, PlatformOk, Pending, Carried, HostStep, Saved, SaveTurn, HostTurn,
          Answered, CallTurn, Expanded, Reached, Grown;
      ghost var c := ExpandVolume(volume, path, pathOk, required, limit);
      ghost var x0 := Sight(OK);
      ghost var x1 := BeginTurn(x0, c);
      var next := AdmitExpand(volume, path, pathOk, required, limit);
      Begins(x0, c, next);
      if next.Idle? {
        return next.code, 0;
      }
      var stages := journal;
      var s := stages[volume];
      var out := Ask(CheckUse, s.proof, when, checked);
      CheckingTurns(api.cfg, id, x1, checked, volume, required, limit);
      ghost var x2 := CallTurn(api.cfg, id, x1, checked);
      if out.Rejected? {
        return out.code, 0;
      }
      if out.volume.None? {
        return Unavailable, 0;
      }
      var v := out.volume.value;
      if v.size < required {
        return FailedPrecondition, 0;
      }
      if limit > 0 && v.size > limit {
        return OutOfRange, 0;
      }
      code := GrowAndUpdate(x2, volume, v, required, limit, expanded, saved);
      capacity := v.size;
    }

    /** The rest of expanding: grow the mounts, then note the size. */
    method GrowAndUpdate(ghost x: Exchange, volume: string, v: Volume, ghost required: int, ghost limit: int,
                         expanded: Fault, saved: Fault)
      returns (code: Code)
      requires volume in journal
      requires x == Exchange(api.State(), Node(hash, journal, host.mounts, Growing(volume, v, required, limit)))
      modifies this, host
      ensures Sight(code) == SaveTurn(HostTurn(x, expanded), saved)
      ensures code == OK ==> volume in journal && journal[volume].volume == v
    {
      hide HostStep, Saved, SaveTurn, HostTurn, Expanded, Reached, Grown;
      var s := journal[volume];
      var err := host.Expand(v, s.path, expanded);
      Effects(x, expanded, Expanded(x.node.mounts, v, s.path), Hosted(host.mounts, err),
          Updating(volume, v, required, limit));
      if err != NoError {
        return Unavailable;
      }
      var stages := journal[volume := s.(volume := v)];
      Writes(HostTurn(x, expanded), saved, stages, Idle(OK));
      var ok := Save(stages, saved);
      code := if ok then OK else Unavailable;
    }

    method AdmitPublish(r: PublishRequest) returns (next: PC)
      ensures next == Begin(Sight(OK).node, PublishVolume(r)).pc
      ensures next.Idle? || (r.volume in journal
          && next == Permitting(r.volume, r.target, Target(r.readOnly, r.podUID)))
    {
      hide TargetTaken, ModeOf, ProofOf, Matches, ValidID;
      if r.volume == "" || !r.targetOk || !r.stagingOk || r.target == r.staging {
        return Idle(InvalidArgument);
      }
      var m, p := ModeOf(r.capability), ProofOf(r.volume, r.context);
      if m.None? {
        return Idle(InvalidArgument);
      }
      if p.None? {
        return Idle(PermissionDenied);
      }
      var stages := journal;
      if r.volume !in stages || !stages[r.volume].ready || !Matches(stages[r.volume], m.value, r.staging, p.value) {
        return Idle(FailedPrecondition);
      }
      var s := stages[r.volume];
      if !ValidID(r.podUID) {
        return Idle(InvalidArgument);
      }
      var taken := FindTaken(stages, r.volume, r.target);
      if taken {
        return Idle(AlreadyExists);
      }
      var wanted := Target(r.readOnly, r.podUID);
      if r.target in s.targets && s.targets[r.target] != wanted {
        return Idle(AlreadyExists);
      }
      next := Permitting(r.volume, r.target, wanted);
    }

    method NodePublishVolume(r: PublishRequest, when: string, recorded: Fault, saved: Fault, published: Fault)
      returns (code: Code)
      requires Ready(1)
      modifies this, host, api`volumes, api`attachments, api.log
      ensures api.Valid()
      ensures Sight(code)
           == HostTurn(SaveTurn(CallTurn(api.cfg, id,
                BeginTurn(old(Sight(OK)), PublishVolume(r)), recorded), saved), published)
    {
      hide NodeApply, PlatformOk, Pending, Carried, HostStep, Saved, SaveTurn, HostTurn, Answered, CallTurn, Published,
          Reached, BeginTurn, Begin, BeginPublish, Draft, AfterSave;
      ghost var x0 := Sight(OK);
      ghost var x1 := BeginTurn(x0, PublishVolume(r));
      var next := AdmitPublish(r);
      Begins(x0, PublishVolume(r), next);
      if next.Idle? {
        return next.code;
      }
      var stages, wanted := journal, next.wanted;
      var s := stages[r.volume];
      var out := Ask(RecordPublish, s.proof.(podUID := r.podUID), when, recorded);
      PermittingTurns(api.cfg, id, x1, recorded, r.volume, r.target, wanted);
      ghost var x2 := CallTurn(api.cfg, id, x1, recorded);
      if out.Rejected? {
        return out.code;
      }
      code := NoteAndBind(x2, r.volume, r.target, wanted, saved, published);
    }

    /** The rest of publishing: note the target, then bind it. */
    method NoteAndBind(ghost x: Exchange, volume: string, target: string, wanted: Target, saved: Fault,
                       published: Fault)
      returns (code: Code)
      requires volume in journal
      requires x == Exchange(api.State(), Node(hash, journal, host.mounts, Noting(volume, target, wanted)))
      modifies this, host
      ensures Sight(code) == HostTurn(SaveTurn(x, saved), published)
    {
      hide HostStep, Saved, SaveTurn, HostTurn, Published, Reached, Draft, AfterSave;
      var s := journal[volume];
      s := s.(targets := s.targets[target := wanted]);
      NotingTurns(x, saved, volume, target, wanted);
      ghost var x1 := SaveTurn(x, saved);
      var ok := Save(journal[volume := s], saved);
      if !ok {
        return Unavailable;
      }
      var err := host.Publish(s.volume, s.path, target, wanted.readOnly, published);
      Effects(x1, published, Published(x1.node.mounts, s.volume, s.path, target, wanted.readOnly),
          Hosted(host.mounts, err), Idle(OK));
      code := if err == NoError then OK else Unavailable;
    }

    method AdmitStage(r: StageRequest) returns (next: PC)
      ensures next == Begin(Sight(OK).node, StageVolume(r)).pc
      ensures next.Idle? || (next.Acquiring? && next.path == r.path && next.proof.volume == r.volume)
    {
      hide OwnedByOther, ModeOf, ProofOf, Matches;
      if r.volume == "" || !r.pathOk {
        return Idle(InvalidArgument);
      }
      var m, q := ModeOf(r.capability), ProofOf(r.volume, r.context);
      if m.None? {
        return Idle(InvalidArgument);
      }
      if q.None? {
        return Idle(PermissionDenied);
      }
      var p := q.value.(use := hash(q.value.volume, r.path, q.value.generation), mode := m.value.mode,
          fsType := m.value.fsType);
      ProofNames(r.volume, r.context);
      var stages := journal;
      if r.volume in stages && !Matches(stages[r.volume], m.value, r.path, p) {
        return Idle(AlreadyExists);
      }
      var other := FindOther(stages, r.volume, r.path);
      if other {
        return Idle(AlreadyExists);
      }
      next := Acquiring(p, r.path);
    }

    method NodeStageVolume(r: StageRequest, when: string, acquired: Fault, saved: Fault, staged: Fault, marked: Fault,
                           finished: Fault)
      returns (code: Code)
      requires Ready(2)
      modifies this, host, api`volumes, api`attachments, api.log
      ensures api.Valid()
      ensures Sight(code)
           == SaveTurn(CallTurn(api.cfg, id, HostTurn(SaveTurn(CallTurn(api.cfg, id,
                BeginTurn(old(Sight(OK)), StageVolume(r)), acquired), saved), staged), marked), finished)
    {
      hide NodeApply, PlatformOk, Pending, Carried, HostStep, Saved, SaveTurn, HostTurn, Answered, CallTurn, BeginTurn,
          Begin, Draft, AfterSave, HostEffect;
      ghost var x0 := Sight(OK);
      ghost var x1 := BeginTurn(x0, StageVolume(r));
      var next := AdmitStage(r);
      Begins(x0, StageVolume(r), next);
      if next.Idle? {
        return next.code;
      }
      var p := next.proof;
      var stages := journal;
      var out := Ask(AcquireUse, p, when, acquired);
      AcquiringTurns(api.cfg, id, x1, acquired, p, r.path);
      ghost var x2 := CallTurn(api.cfg, id, x1, acquired);
      if out.Rejected? {
        return out.code;
      }
      if out.volume.None? {
        return Unavailable;
      }
      var v := out.volume.value;
      if v.spec.mode != p.mode || v.spec.fsType != p.fsType {
        return InvalidArgument;
      }
      var s := if r.volume in stages then stages[r.volume] else Stage(v, p, r.path, false, map[]);
      s := s.(volume := v);
      code := RecordAndMount(x2, r.volume, s, when, saved, staged, marked, finished);
    }

    /** The journal comes first: the intent is saved before anything is mounted. */
    method RecordAndMount(ghost x: Exchange, volume: string, s: Stage, when: string,
                          saved: Fault, staged: Fault, marked: Fault, finished: Fault)
      returns (code: Code)
      requires Ready(1)
      requires x == Exchange(api.State(), Node(hash, journal, host.mounts, Recording(volume, s)))
      modifies this, host, api`volumes, api`attachments, api.log
      ensures api.Valid()
      ensures Sight(code) == SaveTurn(CallTurn(api.cfg, id, HostTurn(SaveTurn(x, saved), staged), marked), finished)
    {
      hide NodeApply, PlatformOk, Saved, SaveTurn, HostTurn, CallTurn;
      RecordingTurns(x, saved);
      var ok := Save(journal[volume := s], saved);
      if !ok {
        return Unavailable;
      }
      code := MountAndMark(SaveTurn(x, saved), volume, when, staged, marked, finished);
    }

    /** The rest of staging, from the record just saved: mount, report, and save that it is ready. */
    method MountAndMark(ghost x: Exchange, volume: string, when: string, staged: Fault, marked: Fault, finished: Fault)
      returns (code: Code)
      requires Ready(1) && volume in journal
      requires x == Exchange(api.State(), Node(hash, journal, host.mounts, Mounting(volume)))
      modifies this, host, api`volumes, api`attachments, api.log
      ensures api.Valid()
      ensures Sight(code) == SaveTurn(CallTurn(api.cfg, id, HostTurn(x, staged), marked), finished)
    {
      hide NodeApply, PlatformOk, Pending, Carried, HostStep, Saved, SaveTurn, HostTurn, Answered, CallTurn, Staged,
          Reached;
      var stages := journal;
      var s := stages[volume];
      var err := host.Stage(s.volume, s.path, staged);
      Effects(x, staged, Staged(x.node.mounts, s.volume, s.path), Hosted(host.mounts, err), Marking(volume));
      ghost var x1 := HostTurn(x, staged);
      if err != NoError {
        return Unavailable;
      }
      var out := Ask(MarkInitialized, s.proof, when, marked);
      MarkingTurns(api.cfg, id, x1, marked, volume);
      ghost var x2 := CallTurn(api.cfg, id, x1, marked);
      if out.Rejected? {
        return out.code;
      }
      s := s.(volume := s.volume.(allowFormat := false), ready := true);
      stages := stages[volume := s];
      Writes(x2, finished, stages, Idle(OK));
      var ok := Save(stages, finished);
      code := if ok then OK else Unavailable;
    }
  }

  lemma ProofNames(volume: string, context: map<string, string>)
    ensures ProofOf(volume, context).Some? ==> ProofOf(volume, context).value.volume == volume
  {
  }
}
