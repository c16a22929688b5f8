/** A machine's mount table, which outlives the agent that fills it. */
module Hosts {
  import opened Model

  datatype Mount = Mount(volume: string, source: string, mode: string, fsType: string, readOnly: bool, size: int)

  type Mounts = map<string, Mount>

  datatype HostError = NoError | StageCollision | TargetCollision | StageAbsent | MountAbsent | HostFailed

  datatype Hosted = Hosted(mounts: Mounts, error: HostError)

  function StageMount(v: Volume): Mount {
    Mount(v.id, v.deviceKey, v.spec.mode, v.spec.fsType, false, v.size)
  }

  function Staged(m: Mounts, v: Volume, path: string): Hosted {
    if path !in m then Hosted(m[path := StageMount(v)], NoError)
    else
      var here := m[path];
      if here.volume != v.id || here.mode != v.spec.mode || here.fsType != v.spec.fsType then Hosted(m, StageCollision)
      else Hosted(m, NoError)
  }

  function TargetMount(v: Volume, stage: string, ro: bool): Mount {
    Mount(v.id, stage, v.spec.mode, v.spec.fsType, ro, v.size)
  }

  function Published(m: Mounts, v: Volume, stage: string, target: string, ro: bool): Hosted {
    if stage !in m || m[stage].volume != v.id then Hosted(m, StageAbsent)
    else if target !in m then Hosted(m[target := TargetMount(v, stage, ro)], NoError)
    else
      var here := m[target];
      if here.volume != v.id || here.source != stage || here.mode != v.spec.mode || here.readOnly != ro
      then Hosted(m, TargetCollision)
      else Hosted(m, NoError)
  }

  function Unmounted(m: Mounts, path: string): Hosted { Hosted(m - {path}, NoError) }

  function Grown(m: Mounts, volume: string, size: int): Mounts {
    map p | p in m :: if m[p].volume == volume then m[p].(size := size) else m[p]
  }

  function Expanded(m: Mounts, v: Volume, path: string): Hosted {
    if path !in m || m[path].volume != v.id then Hosted(m, MountAbsent)
    else Hosted(Grown(m, v.id, v.size), NoError)
  }

  /** A host operation that may fail before its effect or be cut off after it. */
  function Reached(was: Mounts, done: Hosted, fault: Fault): Hosted {
    match fault
    case Fine => done
    case Before(_) => Hosted(was, HostFailed)
    case After(_) => Hosted(done.mounts, if done.error != NoError then done.error else HostFailed)
  }

  class Simulated {
    var mounts: Mounts

    constructor ()
      ensures mounts == map[]
    {
      mounts := map[];
    }

    method Stage(v: Volume, path: string, fault: Fault) returns (err: HostError)
      modifies this
      ensures Hosted(mounts, err) == Reached(old(mounts), Staged(old(mounts), v, path), fault)
      // a free path gets the volume's mount; a taken one is left alone, and is fine only if it is this volume's, in
      // this form
      ensures var wanted := Mount(v.id, v.deviceKey, v.spec.mode, v.spec.fsType, false, v.size);
              mounts == if path in old(mounts) || fault.Before? then old(mounts) else old(mounts)[path := wanted]
      ensures err == NoError <==>
        && fault.Fine? && path in mounts && mounts[path].volume == v.id
        && mounts[path].mode == v.spec.mode && mounts[path].fsType == v.spec.fsType
    {
      if fault.Before? {
        return HostFailed;
      }
      var wanted := Mount(v.id, v.deviceKey, v.spec.mode, v.spec.fsType, false, v.size);
      if path in mounts {
        var here := mounts[path];
        if here.volume != v.id || here.mode != v.spec.mode || here.fsType != v.spec.fsType {
          return StageCollision;
        }
      } else {
        mounts := mounts[path := wanted];
      }
      err := if fault.Fine? then NoError else HostFailed;
    }

    method Publish(v: Volume, stage: string, target: string, ro: bool, fault: Fault) returns (err: HostError)
      modifies this
      ensures Hosted(mounts, err) == Reached(old(mounts), Published(old(mounts), v, stage, target, ro), fault)
      // only where the volume's own stage is mounted; a free target gets a bind of it, a taken one is left alone
      ensures var staged := stage in old(mounts) && old(mounts)[stage].volume == v.id;
              var wanted := Mount(v.id, stage, v.spec.mode, v.spec.fsType, ro, v.size);
              && mounts == (if !staged || target in old(mounts) || fault.Before? then old(mounts)
                  else old(mounts)[target := wanted])
              && (err == NoError <==>
                   && fault.Fine? && staged && target in mounts && mounts[target].volume == v.id
                   && mounts[target].source == stage && mounts[target].mode == v.spec.mode
                       && mounts[target].readOnly == ro)
    {
      if fault.Before? {
        return HostFailed;
      }
      if stage !in mounts || mounts[stage].volume != v.id {
        return StageAbsent;
      }
      if target in mounts {
        var here := mounts[target];
        if here.volume != v.id || here.source != stage || here.mode != v.spec.mode || here.readOnly != ro {
          return TargetCollision;
        }
      } else {
        mounts := mounts[target := Mount(v.id, stage, v.spec.mode, v.spec.fsType, ro, v.size)];
      }
      err := if fault.Fine? then NoError else HostFailed;
    }

    method Unmount(path: string, fault: Fault) returns (err: HostError)
      modifies this
      ensures Hosted(mounts, err) == Reached(old(mounts), Unmounted(old(mounts), path), fault)
      ensures mounts == (if fault.Before? then old(mounts) else old(mounts) - {path})
          && (err == NoError <==> fault.Fine?)
    {
      if fault.Before? {
        return HostFailed;
      }
      mounts := mounts - {path};
      err := if fault.Fine? then NoError else HostFailed;
    }

    /** Rewrites every entry of the volume, wherever the range over the table meets it. */
    method Expand(v: Volume, path: string, fault: Fault) returns (err: HostError)
      modifies this
      ensures Hosted(mounts, err) == Reached(old(mounts), Expanded(old(mounts), v, path), fault)
      // if the volume is mounted at the path, all its mounts take its size, and no other mount changes
      ensures var here := path in old(mounts) && old(mounts)[path].volume == v.id;
              && mounts.Keys == old(mounts).Keys && (err == NoError <==> here && fault.Fine?)
              && forall p :: p in mounts ==>
                   mounts[p] == if here && !fault.Before? && old(mounts)[p].volume == v.id
                                then old(mounts)[p].(size := v.size) else old(mounts)[p]
    {
      if fault.Before? {
        return HostFailed;
      }
      if path !in mounts || mounts[path].volume != v.id {
        return MountAbsent;
      }
      var todo := mounts.Keys;
      while todo != {}
        invariant todo <= mounts.Keys == old(mounts).Keys
        invariant forall p :: p in todo ==> mounts[p] == old(mounts)[p]
        invariant forall p :: p in mounts && p !in todo ==> mounts[p] == Grown(old(mounts), v.id, v.size)[p]
        decreases todo
      {
        var key :| key in todo;
        var entry := mounts[key];
        if entry.volume == v.id {
          entry := entry.(size := v.size);
          mounts := mounts[key := entry];
        }
        todo := todo - {key};
      }
      assert mounts == Grown(old(mounts), v.id, v.size);
      err := if fault.Fine? then NoError else HostFailed;
    }
  }
}
