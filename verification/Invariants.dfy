/** What holds of every platform state, and what can only ever move one way. Every API call keeps both. */
module Invariants {
  import opened Model
  import opened Calls

  // ----- one state -----

  ghost predicate VolumeOk(k: string, v: Volume) {
    && v.id == k && k != ""
    && 0 < v.spec.initialSize <= v.desired <= MAX_SIZE
    && (v.deleteRequested <==> v.state == DELETING || v.state == DELETED)
    && (v.state == CREATING ==> v.size == 0 && v.deviceKey == "")
    && (v.state == AVAILABLE ==> v.desired <= v.size)
    && (v.state == RESIZING ==> v.size < v.desired)
  }

  ghost predicate VolumesOk(s: Platform) {
    forall k :: k in s.volumes ==> VolumeOk(k, s.volumes[k])
  }

  /** A volume that may carry a live attachment: created, and not on its way out. */
  predicate Serving(v: Volume) { v.state == AVAILABLE || v.state == RESIZING }

  ghost predicate AttachmentOk(cfg: Config, s: Platform, x: string, a: Attachment) {
    && a.id == x && ValidID(x)
    && (a.deleteRequested <==> a.state == DETACHING || a.state == DETACHED)
    && (a.state == ATTACHING || a.state == DETACHED ==> a.uses == {})
    && a.link.instance in cfg.instances
    && cfg.instances[a.link.instance].tenant == a.link.tenant
    && cfg.instances[a.link.instance].cluster == a.link.cluster
    && a.link.volume in s.volumes
    && var v := s.volumes[a.link.volume];
       && v.spec.tenant == a.link.tenant && v.spec.cluster == a.link.cluster
       && cfg.instances[a.link.instance].region == v.spec.region
       && cfg.instances[a.link.instance].zone == v.spec.zone
       && 1 <= a.link.generation <= v.generation
       && (Live(a) ==> a.link.generation == v.generation && Serving(v))
  }

  ghost predicate AttachmentsOk(cfg: Config, s: Platform) {
    forall x :: x in s.attachments ==> AttachmentOk(cfg, s, x, s.attachments[x])
  }

  /** Both are the same incarnation of one volume. */
  ghost predicate SameIncarnation(s: Platform, x: string, y: string) {
    && x in s.attachments && y in s.attachments
    && s.attachments[x].link.volume == s.attachments[y].link.volume
    && s.attachments[x].link.generation == s.attachments[y].link.generation
  }

  ghost predicate GenerationsDistinct(s: Platform) {
    forall x, y :: SameIncarnation(s, x, y) ==> x == y
  }

  ghost predicate SameKey(s: Platform, j: string, k: string) {
    && j in s.volumes && k in s.volumes
    && s.volumes[j].spec.tenant == s.volumes[k].spec.tenant
    && s.volumes[j].spec.cluster == s.volumes[k].spec.cluster
    && s.volumes[j].spec.name == s.volumes[k].spec.name
  }

  /** (tenant, cluster, name) is a key: tombstones count too. */
  ghost predicate NamesUnique(s: Platform) {
    forall j, k :: SameKey(s, j, k) ==> j == k
  }

  ghost predicate PlatformOk(cfg: Config, s: Platform) {
    VolumesOk(s) && AttachmentsOk(cfg, s) && GenerationsDistinct(s) && NamesUnique(s)
  }

  // ----- two states -----

  ghost predicate VolumeEvolves(v: Volume, w: Volume) {
    && w.id == v.id && w.spec == v.spec
    && v.generation <= w.generation
    && v.size <= w.size && v.desired <= w.desired
    && (v.deviceKey != "" ==> w.deviceKey == v.deviceKey)
    && (v.deleteRequested ==> w.deleteRequested)
    && (!v.allowFormat ==> !w.allowFormat)
    && (v.state != CREATING ==> w.state != CREATING)
    && (v.state == DELETED ==> w == v)
  }

  function Rank(st: AttachmentState): nat {
    match st case ATTACHING => 0 case ATTACHED => 1 case DETACHING => 2 case DETACHED => 3
  }

  ghost predicate AttachmentEvolves(a: Attachment, b: Attachment) {
    && b.id == a.id && b.link == a.link
    && Rank(a.state) <= Rank(b.state)
    && (!Live(a) ==> b == a)
  }

  ghost predicate Evolves(s: Platform, t: Platform) {
    && (forall k :: k in s.volumes ==> k in t.volumes && VolumeEvolves(s.volumes[k], t.volumes[k]))
    && (forall x :: x in s.attachments ==> x in t.attachments && AttachmentEvolves(s.attachments[x], t.attachments[x]))
  }

  /** The platform moved forward from `s` and is well formed at `t`. */
  ghost predicate Advances(cfg: Config, s: Platform, t: Platform) {
    PlatformOk(cfg, t) && Evolves(s, t)
  }

  lemma Stays(cfg: Config, s: Platform)
    requires PlatformOk(cfg, s)
    ensures Advances(cfg, s, s)
  {
  }

  lemma EvolvesTransitively(s: Platform, t: Platform, u: Platform)
    requires Evolves(s, t) && Evolves(t, u)
    ensures Evolves(s, u)
  {
  }

  // ----- generations -----

  /** A live attachment carries its volume's counter, so a volume has at most one. */
  lemma AtMostOneLive(cfg: Config, s: Platform, x: string, y: string)
    requires PlatformOk(cfg, s)
    requires x in s.attachments && y in s.attachments
    requires s.attachments[x].link.volume == s.attachments[y].link.volume
    requires Live(s.attachments[x]) && Live(s.attachments[y])
    ensures x == y
  {
    assert AttachmentOk(cfg, s, x, s.attachments[x]) && AttachmentOk(cfg, s, y, s.attachments[y]);
    assert s.attachments[x].link.generation == s.attachments[y].link.generation ==> SameIncarnation(s, x, y);
  }

  /** The search for the highest generation has one answer, and finds the live attachment whenever the scope has one. */
  lemma LatestIsLive(cfg: Config, s: Platform, volume: string, instance: string, x: string, y: string)
    requires PlatformOk(cfg, s)
    requires IsLatest(s, volume, instance, x)
    requires y in s.attachments && InScope(s.attachments[y], volume, instance)
    requires Live(s.attachments[y]) || IsLatest(s, volume, instance, y)
    ensures x == y
  {
    assert AttachmentOk(cfg, s, x, s.attachments[x]) && AttachmentOk(cfg, s, y, s.attachments[y]);
    assert s.attachments[x].link.generation == s.attachments[y].link.generation ==> SameIncarnation(s, x, y);
  }

  /** A scope with any attachment has one of highest generation. */
  lemma {:induction false} LatestExists(s: Platform, volume: string, instance: string, among: set<string>)
    returns (x: string)
    requires among != {} && among <= s.attachments.Keys
    requires forall y :: y in among ==> InScope(s.attachments[y], volume, instance)
    ensures x in among
    ensures forall y :: y in among ==> s.attachments[y].link.generation <= s.attachments[x].link.generation
    decreases among
  {
    x :| x in among;
    var rest := among - {x};
    assert forall z :: z in among ==> z == x || z in rest;
    if rest != {} {
      var y := LatestExists(s, volume, instance, rest);
      if s.attachments[x].link.generation < s.attachments[y].link.generation { x := y; }
    }
  }

  lemma NamedUnique(cfg: Config, s: Platform, p: Principal, name: string, k: string)
    requires PlatformOk(cfg, s) && IsNamed(s, p, name, k)
    ensures Named(s, p, name) == Some(k)
  {
    assert SameKey(s, k, Named(s, p, name).value);
  }

  lemma LiveUnique(cfg: Config, s: Platform, volume: string, x: string)
    requires PlatformOk(cfg, s) && IsLiveOn(s, volume, x)
    ensures LiveOn(s, volume) == Some(x)
  {
    AtMostOneLive(cfg, s, x, LiveOn(s, volume).value);
  }

  lemma LatestUnique(cfg: Config, s: Platform, volume: string, instance: string, found: Option<string>)
    requires PlatformOk(cfg, s)
    requires found.Some? ==> IsLatest(s, volume, instance, found.value)
    requires found.None? ==> forall x :: x in s.attachments ==> !InScope(s.attachments[x], volume, instance)
    ensures Latest(s, volume, instance) == found
  {
    if found.Some? {
      LatestIsLive(cfg, s, volume, instance, Latest(s, volume, instance).value, found.value);
    }
  }

  lemma EmptyUnused(cfg: Config, s: Platform)
    requires PlatformOk(cfg, s)
    ensures "" !in s.attachments
  {
    forall x | x in s.attachments ensures x != "" {
      assert AttachmentOk(cfg, s, x, s.attachments[x]);
    }
  }

  lemma NothingLatest(s: Platform, volume: string, instance: string)
    requires Latest(s, volume, instance).None?
    ensures forall x :: x in s.attachments ==> !InScope(s.attachments[x], volume, instance)
  {
    var among := set x | x in s.attachments && InScope(s.attachments[x], volume, instance);
    if among != {} {
      var x := LatestExists(s, volume, instance, among);
      assert IsLatest(s, volume, instance, x);
    }
    forall x | x in s.attachments ensures !InScope(s.attachments[x], volume, instance) { assert x !in among; }
  }

  // ----- every call keeps them -----

  lemma LinksKept(s: Platform, t: Platform)
    requires GenerationsDistinct(s) && t.attachments.Keys == s.attachments.Keys
    requires forall x :: x in s.attachments ==> t.attachments[x].link == s.attachments[x].link
    ensures GenerationsDistinct(t)
  {
    forall x, y | SameIncarnation(t, x, y) ensures x == y {
      assert SameIncarnation(s, x, y);
    }
  }

  lemma SpecsKept(s: Platform, t: Platform)
    requires NamesUnique(s) && t.volumes.Keys == s.volumes.Keys
    requires forall k :: k in s.volumes ==> t.volumes[k].spec == s.volumes[k].spec
    ensures NamesUnique(t)
  {
    forall j, k | SameKey(t, j, k) ensures j == k {
      assert SameKey(s, j, k);
    }
  }

  lemma SetVolumeOk(cfg: Config, s: Platform, k: string, w: Volume)
    requires PlatformOk(cfg, s) && k in s.volumes && VolumeOk(k, w)
    requires w.spec == s.volumes[k].spec && s.volumes[k].generation <= w.generation
    requires (Serving(w) && w.generation == s.volumes[k].generation) || !Busy(s, k)
    ensures PlatformOk(cfg, s.(volumes := s.volumes[k := w]))
  {
    var t := s.(volumes := s.volumes[k := w]);
    forall x | x in t.attachments ensures AttachmentOk(cfg, t, x, t.attachments[x]) {
      assert AttachmentOk(cfg, s, x, s.attachments[x]);
      assert IsLiveOn(s, k, x) ==> Busy(s, k);
    }
    LinksKept(s, t);
    SpecsKept(s, t);
  }

  lemma SetVolumeKeeps(cfg: Config, s: Platform, k: string, w: Volume)
    requires PlatformOk(cfg, s) && k in s.volumes && VolumeOk(k, w) && VolumeEvolves(s.volumes[k], w)
    requires (Serving(w) && w.generation == s.volumes[k].generation) || !Busy(s, k)
    ensures Advances(cfg, s, s.(volumes := s.volumes[k := w]))
  {
    SetVolumeOk(cfg, s, k, w);
  }

  lemma SetAttachmentOk(cfg: Config, s: Platform, x: string, b: Attachment)
    requires PlatformOk(cfg, s) && x in s.attachments
    requires AttachmentOk(cfg, s, x, b) && b.link == s.attachments[x].link
    ensures PlatformOk(cfg, WithAttachment(s, x, b))
  {
    var t := WithAttachment(s, x, b);
    forall y | y in t.attachments ensures AttachmentOk(cfg, t, y, t.attachments[y]) {
      assert y != x ==> AttachmentOk(cfg, s, y, s.attachments[y]);
    }
    LinksKept(s, t);
    SpecsKept(s, t);
  }

  lemma SetAttachmentKeeps(cfg: Config, s: Platform, x: string, b: Attachment)
    requires PlatformOk(cfg, s) && x in s.attachments
    requires AttachmentOk(cfg, s, x, b) && AttachmentEvolves(s.attachments[x], b)
    ensures Advances(cfg, s, WithAttachment(s, x, b))
  {
    SetAttachmentOk(cfg, s, x, b);
  }

  lemma AddAttachmentKeeps(cfg: Config, s: Platform, x: string, b: Attachment)
    requires PlatformOk(cfg, s) && x !in s.attachments && AttachmentOk(cfg, s, x, b)
    requires forall y | y in s.attachments && s.attachments[y].link.volume == b.link.volume ::
               s.attachments[y].link.generation < b.link.generation
    ensures Advances(cfg, s, WithAttachment(s, x, b))
  {
    hide VolumeOk, ValidID, SameKey;
    var t := WithAttachment(s, x, b);
    forall y | y in t.attachments ensures AttachmentOk(cfg, t, y, t.attachments[y]) {
      assert y != x ==> AttachmentOk(cfg, s, y, s.attachments[y]);
    }
    forall y, z | SameIncarnation(t, y, z) ensures y == z {
      assert y != x && z != x ==> SameIncarnation(s, y, z);
    }
    SpecsKept(s, t);
  }

  lemma KnownVolume(cfg: Config, s: Platform, k: string)
    requires PlatformOk(cfg, s) && k in s.volumes
    ensures VolumeOk(k, s.volumes[k])
  {
  }

  /** Every attachment of a volume was born at or before the volume's counter. */
  lemma EarlierGenerations(cfg: Config, s: Platform, k: string)
    requires PlatformOk(cfg, s) && k in s.volumes
    ensures forall y :: y in s.attachments && s.attachments[y].link.volume == k
              ==> s.attachments[y].link.generation <= s.volumes[k].generation
  {
    forall y | y in s.attachments && s.attachments[y].link.volume == k
      ensures s.attachments[y].link.generation <= s.volumes[k].generation
    {
      assert AttachmentOk(cfg, s, y, s.attachments[y]);
    }
  }

  lemma NewIncarnationKeeps(cfg: Config, s: Platform, k: string, instance: string, newID: string)
    requires PlatformOk(cfg, s) && Fresh(s, newID)
    requires k in s.volumes && Serving(s.volumes[k]) && !Busy(s, k)
    requires instance in cfg.instances
    requires cfg.instances[instance].tenant == s.volumes[k].spec.tenant
    requires cfg.instances[instance].cluster == s.volumes[k].spec.cluster
    requires cfg.instances[instance].region == s.volumes[k].spec.region
    requires cfg.instances[instance].zone == s.volumes[k].spec.zone
    ensures Advances(cfg, s, NewIncarnation(s, k, instance, newID))
  {
    hide VolumesOk, AttachmentsOk, GenerationsDistinct, NamesUnique, Evolves;
    var v := s.volumes[k];
    var w := v.(generation := v.generation + 1);
    var u := s.(volumes := s.volumes[k := w]);
    assert VolumeOk(k, v) by { KnownVolume(cfg, s, k); }
    SetVolumeKeeps(cfg, s, k, w);
    EarlierGenerations(cfg, s, k);
    var b := NewAttachment(w, instance, newID);
    AddAttachmentKeeps(cfg, u, newID, b);
    EvolvesTransitively(s, u, WithAttachment(u, newID, b));
  }

  lemma CreateVolumeKeeps(cfg: Config, p: Principal, r: Request, newID: string, s: Platform)
    requires PlatformOk(cfg, s) && Fresh(s, newID)
    ensures Advances(cfg, s, CreateVolumeCall(cfg, p, r, newID, s).state)
  {
    Stays(cfg, s);
    var t := CreateVolumeCall(cfg, p, r, newID, s).state;
    if t != s {
      var v := NewVolume(p, r, newID);
      assert t == s.(volumes := s.volumes[newID := v]);
      forall j, k | SameKey(t, j, k) ensures j == k {
        assert j != newID && k != newID ==> SameKey(s, j, k);
        assert !IsNamed(s, p, r.name, j) && !IsNamed(s, p, r.name, k);
      }
      LinksKept(s, t);
      forall x | x in t.attachments ensures AttachmentOk(cfg, t, x, t.attachments[x]) {
        assert AttachmentOk(cfg, s, x, s.attachments[x]);
      }
    }
  }

  lemma CreateAttachmentKeeps(cfg: Config, p: Principal, r: Request, newID: string, s: Platform)
    requires ConfigOk(cfg) && PlatformOk(cfg, s) && Fresh(s, newID)
    ensures Advances(cfg, s, CreateAttachmentCall(cfg, p, r, newID, s).state)
  {
    Stays(cfg, s);
    var t := CreateAttachmentCall(cfg, p, r, newID, s).state;
    if t != s {
      assert VolumeOk(r.volume, s.volumes[r.volume]);
      NewIncarnationKeeps(cfg, s, r.volume, r.instance, newID);
      assert cfg.instances[r.instance].id == r.instance;
    }
  }

  lemma VolumeCallKeeps(cfg: Config, p: Principal, op: Op, r: Request, s: Platform)
    requires PlatformOk(cfg, s) && op in {GetVolume, DeleteVolume, ResizeVolume}
    ensures Advances(cfg, s, VolumeCall(p, op, r, s).state)
  {
    Stays(cfg, s);
    var t := VolumeCall(p, op, r, s).state;
    if t != s {
      var v := s.volumes[r.id];
      assert VolumeOk(r.id, v);
      if op == DeleteVolume {
        SetVolumeKeeps(cfg, s, r.id, Doomed(v));
      } else {
        SetVolumeKeeps(cfg, s, r.id, Resized(v, r.size));
      }
    }
  }

  lemma AttachmentCallKeeps(cfg: Config, p: Principal, op: Op, r: Request, s: Platform)
    requires PlatformOk(cfg, s) && op in {GetAttachment, DeleteAttachment}
    ensures Advances(cfg, s, AttachmentCall(p, op, r, s).state)
  {
    Stays(cfg, s);
    var t := AttachmentCall(p, op, r, s).state;
    if t != s {
      var x := Chosen(r, s).value;
      assert AttachmentOk(cfg, s, x, s.attachments[x]);
      SetAttachmentKeeps(cfg, s, x, Draining(s.attachments[x]));
    }
  }

  lemma UseCallKeeps(cfg: Config, i: Instance, op: Op, r: Request, s: Platform)
    requires PlatformOk(cfg, s) && IsUseOp(op)
    ensures Advances(cfg, s, UseCall(i, op, r, s).state)
  {
    Stays(cfg, s);
    var t := UseCall(i, op, r, s).state;
    var x := r.attachment;
    if t != s {
      var a := s.attachments[x];
      assert AttachmentOk(cfg, s, x, a);
      if op == MarkInitialized {
        assert VolumeOk(r.volume, s.volumes[r.volume]);
        SetVolumeKeeps(cfg, s, r.volume, t.volumes[r.volume]);
      } else {
        SetAttachmentKeeps(cfg, s, x, t.attachments[x]);
      }
    }
  }

  /** Every call, accepted or rejected, keeps the platform's invariants and moves it only forward. */
  lemma ApplyKeeps(cfg: Config, p: Principal, op: Op, r: Request, newID: string, s: Platform)
    requires ConfigOk(cfg) && PlatformOk(cfg, s) && (p.role == "node" || Fresh(s, newID))
    ensures Advances(cfg, s, Apply(cfg, p, op, r, newID, s).state)
  {
    Stays(cfg, s);
    if p.role == "node" {
      if InstanceAllowed(cfg, p, p.instance) && IsUseOp(op) {
        UseCallKeeps(cfg, cfg.instances[p.instance], op, r, s);
      }
    } else if p.role == "controller" {
      match op {
        case CreateVolume => CreateVolumeKeeps(cfg, p, r, newID, s);
        case GetVolume => VolumeCallKeeps(cfg, p, op, r, s);
        case DeleteVolume => VolumeCallKeeps(cfg, p, op, r, s);
        case ResizeVolume => VolumeCallKeeps(cfg, p, op, r, s);
        case CreateAttachment => CreateAttachmentKeeps(cfg, p, r, newID, s);
        case GetAttachment => AttachmentCallKeeps(cfg, p, op, r, s);
        case DeleteAttachment => AttachmentCallKeeps(cfg, p, op, r, s);
        case _ =>
      }
    }
  }
}
