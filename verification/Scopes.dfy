/** What a call does to the platform depends on, and touches, its own scope only. What it answers does too, except
    that addressing another scope's object by its ID is refused rather than not found. */
module Scopes {
  import opened Model
  import opened Calls
  import opened Invariants
  import opened Engines

  datatype Scope = Scope(tenant: string, cluster: string)

  function ScopeOf(p: Principal): Scope { Scope(p.tenant, p.cluster) }

  function VolumeScope(v: Volume): Scope { Scope(v.spec.tenant, v.spec.cluster) }

  function AttachmentScope(a: Attachment): Scope { Scope(a.link.tenant, a.link.cluster) }

  /** The platform as if `z` were the only scope. */
  function Part(s: Platform, z: Scope): Platform {
    Platform(map k | k in s.volumes && VolumeScope(s.volumes[k]) == z :: s.volumes[k],
             map x | x in s.attachments && AttachmentScope(s.attachments[x]) == z :: s.attachments[x])
  }

  function PutIf<T>(here: bool, m: map<string, T>, k: string, t: T): map<string, T> {
    if here then m[k := t] else m
  }

  lemma PutVolume(s: Platform, k: string, w: Volume, z: Scope)
    requires k in s.volumes ==> VolumeScope(s.volumes[k]) == VolumeScope(w)
    ensures var p := Part(s, z);
            Part(s.(volumes := s.volumes[k := w]), z) == p.(volumes := PutIf(VolumeScope(w) == z, p.volumes, k, w))
  {
  }

  lemma PutAttachment(s: Platform, x: string, b: Attachment, z: Scope)
    requires x in s.attachments ==> AttachmentScope(s.attachments[x]) == AttachmentScope(b)
    ensures var p := Part(s, z);
            Part(WithAttachment(s, x, b), z) == p.(attachments := PutIf(AttachmentScope(b) == z, p.attachments, x, b))
  {
  }

  lemma PartIsOk(cfg: Config, s: Platform, z: Scope)
    requires PlatformOk(cfg, s)
    ensures PlatformOk(cfg, Part(s, z))
  {
    var p := Part(s, z);
    forall x | x in p.attachments ensures AttachmentOk(cfg, p, x, p.attachments[x]) {
      assert AttachmentOk(cfg, s, x, s.attachments[x]);
    }
    forall x, y | SameIncarnation(p, x, y) ensures x == y { assert SameIncarnation(s, x, y); }
    forall j, k | SameKey(p, j, k) ensures j == k { assert SameKey(s, j, k); }
  }

  /** An attachment always shares the scope of its volume, so a volume's attachments are all in one part. */
  lemma LiveInPart(cfg: Config, s: Platform, k: string, z: Scope)
    requires PlatformOk(cfg, s) && k in s.volumes && VolumeScope(s.volumes[k]) == z
    ensures LiveOn(Part(s, z), k) == LiveOn(s, k) && Busy(Part(s, z), k) == Busy(s, k)
  {
    var p := Part(s, z);
    PartIsOk(cfg, s, z);
    forall x | IsLiveOn(s, k, x) ensures IsLiveOn(p, k, x) {
      assert AttachmentOk(cfg, s, x, s.attachments[x]);
    }
    if Busy(p, k) {
      LiveUnique(cfg, s, k, LiveOn(p, k).value);
    }
  }

  lemma NamedInPart(cfg: Config, s: Platform, p: Principal, name: string)
    requires PlatformOk(cfg, s)
    ensures Named(Part(s, ScopeOf(p)), p, name) == Named(s, p, name)
  {
    var q := Part(s, ScopeOf(p));
    assert forall k :: IsNamed(q, p, name, k) <==> IsNamed(s, p, name, k);
    if Named(q, p, name).Some? { NamedUnique(cfg, s, p, name, Named(q, p, name).value); }
  }

  /** Seen from inside the scope, the latest attachment is the same; if it is outside, there is none. */
  lemma LatestInPart(cfg: Config, s: Platform, volume: string, instance: string, z: Scope)
    requires PlatformOk(cfg, s)
    ensures var x := Latest(s, volume, instance);
            var seen := x.Some? && AttachmentScope(s.attachments[x.value]) == z;
            Latest(Part(s, z), volume, instance) == if seen then x else None
  {
    var q, x := Part(s, z), Latest(s, volume, instance);
    PartIsOk(cfg, s, z);
    forall y | y in s.attachments && InScope(s.attachments[y], volume, instance) && x.Some?
      ensures AttachmentScope(s.attachments[y]) == AttachmentScope(s.attachments[x.value])
    {
      assert AttachmentOk(cfg, s, y, s.attachments[y]) && AttachmentOk(cfg, s, x.value, s.attachments[x.value]);
    }
    if x.None? {
      NothingLatest(s, volume, instance);
    } else if AttachmentScope(s.attachments[x.value]) == z {
      LatestUnique(cfg, q, volume, instance, x);
    }
  }

  // ----- each call, in each part -----

  /** What a call leaves of scope `z`: its own doing if `z` is its own scope, and nothing new otherwise. */
  ghost predicate Local(p: Principal, s: Platform, t: Platform, u: Platform, z: Scope) {
    Part(t, z) == if z == ScopeOf(p) then u else Part(s, z)
  }

  lemma CreateVolumeLocal(cfg: Config, p: Principal, r: Request, newID: string, s: Platform, z: Scope)
    requires PlatformOk(cfg, s) && Fresh(s, newID)
    ensures Local(p, s, CreateVolumeCall(cfg, p, r, newID, s).state,
                  CreateVolumeCall(cfg, p, r, newID, Part(s, ScopeOf(p))).state, z)
  {
    hide PlatformOk, Part, CreatableVolume;
    NamedInPart(cfg, s, p, r.name);
    PutVolume(s, newID, NewVolume(p, r, newID), z);
  }

  lemma OwnVolumeInPart(p: Principal, s: Platform, k: string)
    ensures var q := Part(s, ScopeOf(p)).volumes;
            && (k in q <==> k in s.volumes && Owned(p, s.volumes[k]))
            && (k in q ==> q[k] == s.volumes[k])
  {
  }

  lemma VolumeCallLocal(cfg: Config, p: Principal, op: Op, r: Request, s: Platform, z: Scope)
    requires PlatformOk(cfg, s) && op in {GetVolume, DeleteVolume, ResizeVolume}
    ensures Local(p, s, VolumeCall(p, op, r, s).state, VolumeCall(p, op, r, Part(s, ScopeOf(p))).state, z)
  {
    hide PlatformOk, Busy, Part, ResizeAllowed;
    OwnVolumeInPart(p, s, r.id);
    if r.id in s.volumes && Owned(p, s.volumes[r.id]) {
      var v := s.volumes[r.id];
      LiveInPart(cfg, s, r.id, ScopeOf(p));
      PutVolume(s, r.id, Doomed(v), z);
      PutVolume(s, r.id, Resized(v, r.size), z);
    }
  }

  lemma NewIncarnationLocal(s: Platform, k: string, instance: string, newID: string, z: Scope)
    requires k in s.volumes && newID !in s.attachments
    ensures var here := VolumeScope(s.volumes[k]) == z;
            && (here ==> k in Part(s, z).volumes)
            && Part(NewIncarnation(s, k, instance, newID), z)
            == if here then NewIncarnation(Part(s, z), k, instance, newID) else Part(s, z)
  {
    hide Part;
    var w := s.volumes[k].(generation := s.volumes[k].generation + 1);
    var u := s.(volumes := s.volumes[k := w]);
    if VolumeScope(s.volumes[k]) == z { VolumeInPart(s, k, z); }
    PutVolume(s, k, w, z);
    PutAttachment(u, newID, NewAttachment(w, instance, newID), z);
  }

  lemma VolumeInPart(s: Platform, k: string, z: Scope)
    requires k in s.volumes && VolumeScope(s.volumes[k]) == z
    ensures k in Part(s, z).volumes && Part(s, z).volumes[k] == s.volumes[k]
  {
  }

  lemma CreateAttachmentLocal(cfg: Config, p: Principal, r: Request, newID: string, s: Platform, z: Scope)
    requires PlatformOk(cfg, s) && Fresh(s, newID)
    ensures Local(p, s, CreateAttachmentCall(cfg, p, r, newID, s).state,
                  CreateAttachmentCall(cfg, p, r, newID, Part(s, ScopeOf(p))).state, z)
  {
    OwnVolumeInPart(p, s, r.volume);
    if r.volume in s.volumes && Owned(p, s.volumes[r.volume]) {
      assert s.volumes[r.volume].id == r.volume by { assert VolumeOk(r.volume, s.volumes[r.volume]); }
      LiveInPart(cfg, s, r.volume, ScopeOf(p));
      if r.instance in cfg.instances {
        NewIncarnationLocal(s, r.volume, cfg.instances[r.instance].id, newID, z);
        NewIncarnationLocal(s, r.volume, cfg.instances[r.instance].id, newID, ScopeOf(p));
      }
    }
    hide PlatformOk, NewIncarnation, Part, Attachable, LiveOn;
  }

  lemma OwnAttachmentInPart(p: Principal, s: Platform, x: string)
    ensures var q := Part(s, ScopeOf(p)).attachments;
            && (x in q <==> x in s.attachments && AttachmentScope(s.attachments[x]) == ScopeOf(p))
            && (x in q ==> q[x] == s.attachments[x])
  {
  }

  lemma AttachmentCallLocal(cfg: Config, p: Principal, op: Op, r: Request, s: Platform, z: Scope)
    requires PlatformOk(cfg, s) && op in {GetAttachment, DeleteAttachment}
    ensures Local(p, s, AttachmentCall(p, op, r, s).state, AttachmentCall(p, op, r, Part(s, ScopeOf(p))).state, z)
  {
    hide PlatformOk, Part;
    LatestInPart(cfg, s, r.volume, r.instance, ScopeOf(p));
    EmptyUnused(cfg, s);
    OwnAttachmentInPart(p, s, r.id);
    if Chosen(r, s).Some? {
      var x := Chosen(r, s).value;
      OwnAttachmentInPart(p, s, x);
      PutAttachment(s, x, Draining(s.attachments[x]), z);
    }
  }

  lemma GrantedLocal(p: Principal, op: Op, r: Request, a: Attachment, v: Volume, s: Platform, z: Scope)
    requires Look(s.attachments, r.attachment) == Some(a) && Look(s.volumes, r.volume) == Some(v)
    requires AttachmentScope(a) == ScopeOf(p) == VolumeScope(v)
    ensures Local(p, s, GrantedUse(op, r, a, v, s).state, GrantedUse(op, r, a, v, Part(s, ScopeOf(p))).state, z)
  {
    hide Part, ValidID;
    PutAttachment(s, r.attachment, a.(uses := a.uses + {r.use}), z);
    PutVolume(s, r.volume, v.(allowFormat := false), z);
  }

  lemma UseCallLocal(cfg: Config, p: Principal, i: Instance, op: Op, r: Request, s: Platform, z: Scope)
    requires PlatformOk(cfg, s) && IsUseOp(op) && i.tenant == p.tenant && i.cluster == p.cluster
    ensures Local(p, s, UseCall(i, op, r, s).state, UseCall(i, op, r, Part(s, ScopeOf(p))).state, z)
  {
    hide Part, ValidID, GrantedUse, PlatformOk;
    OwnAttachmentInPart(p, s, r.attachment);
    OwnVolumeInPart(p, s, r.volume);
    if r.attachment in s.attachments && ProofMatches(i, r, s.attachments[r.attachment]) {
      var a := s.attachments[r.attachment];
      VolumeOfAttachment(cfg, s, r.attachment);
      PutAttachment(s, r.attachment, a.(uses := a.uses - {r.use}), z);
      GrantedLocal(p, op, r, a, s.volumes[r.volume], s, z);
    }
  }

  lemma VolumeOfAttachment(cfg: Config, s: Platform, x: string)
    requires PlatformOk(cfg, s) && x in s.attachments
    ensures var k := s.attachments[x].link.volume;
            k in s.volumes && VolumeScope(s.volumes[k]) == AttachmentScope(s.attachments[x])
  {
    assert AttachmentOk(cfg, s, x, s.attachments[x]);
  }

  ghost function After(cfg: Config, p: Principal, op: Op, r: Request, newID: string, s: Platform): Platform {
    Apply(cfg, p, op, r, newID, s).state
  }

  /** A call sees only its own scope, and leaves every other scope exactly as it was. */
  lemma CallIsLocal(cfg: Config, p: Principal, op: Op, r: Request, newID: string, s: Platform, z: Scope)
    requires PlatformOk(cfg, s) && Fresh(s, newID)
    ensures Part(After(cfg, p, op, r, newID, s), z)
         == if z == ScopeOf(p) then After(cfg, p, op, r, newID, Part(s, z)) else Part(s, z)
  {
    hide PlatformOk, Part, CreateVolumeCall, VolumeCall, CreateAttachmentCall, AttachmentCall, UseCall;
    CreateVolumeLocal(cfg, p, r, newID, s, z);
    CreateAttachmentLocal(cfg, p, r, newID, s, z);
    if op in {GetVolume, DeleteVolume, ResizeVolume} { VolumeCallLocal(cfg, p, op, r, s, z); }
    if op in {GetAttachment, DeleteAttachment} { AttachmentCallLocal(cfg, p, op, r, s, z); }
    if IsUseOp(op) && InstanceAllowed(cfg, p, p.instance) {
      UseCallLocal(cfg, p, cfg.instances[p.instance], op, r, s, z);
    }
  }

  // ----- replies -----

  /** The request addresses, by ID or by volume, an object of another scope. */
  ghost predicate Foreign(p: Principal, op: Op, r: Request, s: Platform) {
    match op
    case GetVolume => r.id in s.volumes && !Owned(p, s.volumes[r.id])
    case DeleteVolume => r.id in s.volumes && !Owned(p, s.volumes[r.id])
    case ResizeVolume => r.id in s.volumes && !Owned(p, s.volumes[r.id])
    case GetAttachment => ForeignAttachment(p, r, s)
    case DeleteAttachment => ForeignAttachment(p, r, s)
    case _ => false
  }

  ghost predicate ForeignAttachment(p: Principal, r: Request, s: Platform) {
    var x := Chosen(r, s);
    x.Some? && x.value in s.attachments && AttachmentScope(s.attachments[x.value]) != ScopeOf(p)
  }

  lemma VolumeCallAnswers(cfg: Config, p: Principal, op: Op, r: Request, s: Platform)
    requires PlatformOk(cfg, s) && op in {GetVolume, DeleteVolume, ResizeVolume}
    ensures var here, alone := VolumeCall(p, op, r, s).reply, VolumeCall(p, op, r, Part(s, ScopeOf(p))).reply;
            here == if Foreign(p, op, r, s) then Rejected(PermissionDenied) else alone
  {
    hide PlatformOk, Busy, Part, ResizeAllowed;
    OwnVolumeInPart(p, s, r.id);
    if r.id in s.volumes && Owned(p, s.volumes[r.id]) { LiveInPart(cfg, s, r.id, ScopeOf(p)); }
  }

  lemma AttachmentCallAnswers(cfg: Config, p: Principal, op: Op, r: Request, s: Platform)
    requires PlatformOk(cfg, s) && op in {GetAttachment, DeleteAttachment}
    ensures var here, alone := AttachmentCall(p, op, r, s).reply, AttachmentCall(p, op, r, Part(s, ScopeOf(p))).reply;
            here == if Foreign(p, op, r, s) then Rejected(PermissionDenied) else alone
  {
    hide PlatformOk, Part;
    LatestInPart(cfg, s, r.volume, r.instance, ScopeOf(p));
    EmptyUnused(cfg, s);
    OwnAttachmentInPart(p, s, r.id);
    if Chosen(r, s).Some? { OwnAttachmentInPart(p, s, Chosen(r, s).value); }
  }

  lemma CreateAttachmentAnswers(cfg: Config, p: Principal, r: Request, newID: string, s: Platform)
    requires PlatformOk(cfg, s) && Fresh(s, newID)
    ensures CreateAttachmentCall(cfg, p, r, newID, s).reply
        == CreateAttachmentCall(cfg, p, r, newID, Part(s, ScopeOf(p))).reply
  {
    hide Attachable;
    OwnVolumeInPart(p, s, r.volume);
    if r.volume in s.volumes && Owned(p, s.volumes[r.volume]) {
      assert s.volumes[r.volume].id == r.volume by { assert VolumeOk(r.volume, s.volumes[r.volume]); }
      LiveInPart(cfg, s, r.volume, ScopeOf(p));
      var x := LiveOn(s, r.volume);
      if x.Some? { assert AttachmentOk(cfg, s, x.value, s.attachments[x.value]); }
    }
    hide PlatformOk;
  }

  lemma NodeCallAnswers(cfg: Config, p: Principal, op: Op, r: Request, s: Platform)
    requires PlatformOk(cfg, s)
    ensures NodeCall(cfg, p, op, r, s).reply == NodeCall(cfg, p, op, r, Part(s, ScopeOf(p))).reply
  {
    hide Part, ValidID, PlatformOk;
    OwnAttachmentInPart(p, s, r.attachment);
    OwnVolumeInPart(p, s, r.volume);
    if r.attachment in s.attachments { VolumeOfAttachment(cfg, s, r.attachment); }
  }

  /** A controller's or node's call is answered as if its scope were alone, unless it addresses an object of another
      scope: then it is refused. */
  lemma AnswersAreLocal(cfg: Config, p: Principal, op: Op, r: Request, newID: string, s: Platform)
    requires PlatformOk(cfg, s) && Fresh(s, newID)
    ensures Apply(cfg, p, op, r, newID, s).reply
         == if p.role == "controller" && Foreign(p, op, r, s) then Rejected(PermissionDenied)
            else Apply(cfg, p, op, r, newID, Part(s, ScopeOf(p))).reply
  {
    hide PlatformOk, Part, VolumeCall, CreateAttachmentCall, AttachmentCall, NodeCall, CreatableVolume,
        ForeignAttachment;
    OwnNamedInPart(cfg, p, r, newID, s);
    CreateAttachmentAnswers(cfg, p, r, newID, s);
    NodeCallAnswers(cfg, p, op, r, s);
    if op in {GetVolume, DeleteVolume, ResizeVolume} { VolumeCallAnswers(cfg, p, op, r, s); }
    if op in {GetAttachment, DeleteAttachment} { AttachmentCallAnswers(cfg, p, op, r, s); }
  }

  lemma OwnNamedInPart(cfg: Config, p: Principal, r: Request, newID: string, s: Platform)
    requires PlatformOk(cfg, s)
    ensures CreateVolumeCall(cfg, p, r, newID, s).reply == CreateVolumeCall(cfg, p, r, newID, Part(s, ScopeOf(p))).reply
  {
    hide PlatformOk, Part, CreatableVolume;
    NamedInPart(cfg, s, p, r.name);
    var k := Named(s, p, r.name);
    if k.Some? { OwnVolumeInPart(p, s, k.value); }
  }

  // ----- order -----

  lemma SameParts(s: Platform, t: Platform)
    requires forall z: Scope :: Part(s, z) == Part(t, z)
    ensures s == t
  {
    forall k ensures Look(s.volumes, k) == Look(t.volumes, k) {
      if k in s.volumes { assert k in Part(s, VolumeScope(s.volumes[k])).volumes; }
      if k in t.volumes { assert k in Part(t, VolumeScope(t.volumes[k])).volumes; }
    }
    forall x ensures Look(s.attachments, x) == Look(t.attachments, x) {
      if x in s.attachments { assert x in Part(s, AttachmentScope(s.attachments[x])).attachments; }
      if x in t.attachments { assert x in Part(t, AttachmentScope(t.attachments[x])).attachments; }
    }
    SameLooks(s.volumes, t.volumes);
    SameLooks(s.attachments, t.attachments);
  }

  lemma SameLooks<T>(m: map<string, T>, n: map<string, T>)
    requires forall k :: Look(m, k) == Look(n, k)
    ensures m == n
  {
    forall k ensures (k in m <==> k in n) && (k in m ==> m[k] == n[k]) {
      assert Look(m, k) == Look(n, k);
    }
  }

  /** Calls from different scopes commute: the order in which they arrive leaves no trace on the platform. */
  lemma ScopesCommute(cfg: Config, p: Principal, op: Op, r: Request, id: string,
                      p': Principal, op': Op, r': Request, id': string, s: Platform)
    requires ConfigOk(cfg) && PlatformOk(cfg, s) && ScopeOf(p) != ScopeOf(p')
    requires Fresh(s, id) && Fresh(s, id') && id != id'
    ensures After(cfg, p', op', r', id', After(cfg, p, op, r, id, s))
        == After(cfg, p, op, r, id, After(cfg, p', op', r', id', s))
  {
    hide PlatformOk, Part, After, Evolves;
    var t, t' := After(cfg, p, op, r, id, s), After(cfg, p', op', r', id', s);
    AfterKeeps(cfg, p, op, r, id, s, id');
    AfterKeeps(cfg, p', op', r', id', s, id);
    forall z: Scope ensures Part(After(cfg, p', op', r', id', t), z) == Part(After(cfg, p, op, r, id, t'), z) {
      CallIsLocal(cfg, p, op, r, id, s, z);
      CallIsLocal(cfg, p', op', r', id', s, z);
      CallIsLocal(cfg, p', op', r', id', t, z);
      CallIsLocal(cfg, p, op, r, id, t', z);
    }
    SameParts(After(cfg, p', op', r', id', t), After(cfg, p, op, r, id, t'));
  }

  /** A call uses up no identifier but its own. */
  lemma KeysGrow(cfg: Config, p: Principal, op: Op, r: Request, newID: string, s: Platform)
    ensures var t := After(cfg, p, op, r, newID, s);
            t.volumes.Keys <= s.volumes.Keys + {newID} && t.attachments.Keys <= s.attachments.Keys + {newID}
  {
    hide GrantedUse, ValidID, ResizeAllowed, CreatableVolume, Attachable, ProofMatches, Doomed, Resized, Draining,
        Busy, Owned;
    if r.attachment in s.attachments && r.volume in s.volumes {
      GrantedKeys(op, r, s.attachments[r.attachment], s.volumes[r.volume], s);
    }
  }

  lemma GrantedKeys(op: Op, r: Request, a: Attachment, v: Volume, s: Platform)
    requires r.attachment in s.attachments && r.volume in s.volumes
    ensures var t := GrantedUse(op, r, a, v, s).state;
            t.volumes.Keys == s.volumes.Keys && t.attachments.Keys == s.attachments.Keys
  {
  }

  lemma AfterKeeps(cfg: Config, p: Principal, op: Op, r: Request, newID: string, s: Platform, other: string)
    requires ConfigOk(cfg) && PlatformOk(cfg, s) && Fresh(s, newID) && Fresh(s, other) && other != newID
    ensures PlatformOk(cfg, After(cfg, p, op, r, newID, s)) && Fresh(After(cfg, p, op, r, newID, s), other)
  {
    hide PlatformOk, Apply, Evolves;
    ApplyKeeps(cfg, p, op, r, newID, s);
    KeysGrow(cfg, p, op, r, newID, s);
    var t := After(cfg, p, op, r, newID, s);
    assert other !in t.volumes.Keys && other !in t.attachments.Keys;
  }
}
