/** The cloud's actual state, kept apart from the platform database. */
module Provider {
  import opened Model

  datatype Disk = Disk(id: string, deviceKey: string, size: int, instance: string, attachment: string)

  type Cloud = map<string, Disk>

  function Put(c: Cloud, k: string, d: Option<Disk>): Cloud {
    if d.Some? then c[k := d.value] else c - {k}
  }

  /** What one provider call leaves: the disk it addresses, and its error (`Clear` when it succeeds). */
  datatype Outcome = Outcome(disk: Option<Disk>, error: Trouble)

  /** The same call across a faulty boundary. A refused call stays refused when its answer is lost. */
  function Across(was: Option<Disk>, done: Outcome, fault: Fault): Outcome {
    match fault
    case Fine => done
    case Before(t) => Outcome(was, Failed(t))
    case After(t) => if done.error != Clear then done else Outcome(done.disk, Failed(t))
  }

  function DeviceKeyOf(id: string): string { "platform-" + id }

  function EnsuredVolume(v: Volume, d: Option<Disk>): Outcome {
    var base := if d.Some? then d.value else Disk(v.id, DeviceKeyOf(v.id), 0, "", "");
    Outcome(Some(if v.desired > base.size then base.(size := v.desired) else base), Clear)
  }

  function Deleted(d: Option<Disk>): Outcome {
    if d.Some? && d.value.instance != "" then Outcome(d, StillAttached) else Outcome(None, Clear)
  }

  predicate HeldBy(d: Disk, vm: string, attachment: string) {
    d.instance == vm && d.attachment == attachment
  }

  function Attached(d: Option<Disk>, vm: string, attachment: string): Outcome {
    if d.None? then Outcome(d, DiskMissing)
    else if d.value.instance != "" && !HeldBy(d.value, vm, attachment) then Outcome(d, WriterConflict)
    else Outcome(Some(d.value.(instance := vm, attachment := attachment)), Clear)
  }

  function Detached(d: Option<Disk>, vm: string, attachment: string): Outcome {
    if d.None? || d.value.instance == "" then Outcome(d, Clear)
    else if !HeldBy(d.value, vm, attachment) then Outcome(d, IdentityMismatch)
    else Outcome(Some(d.value.(instance := "", attachment := "")), Clear)
  }

  /** The persistent cloud emulator. Every call names one disk and leaves all others alone. */
  class Fake {
    var disks: Cloud

    constructor ()
      ensures disks == map[]
    {
      disks := map[];
    }

    method GetVolume(id: string, fault: Fault) returns (out: Option<Disk>, err: Trouble)
      ensures fault.Fine? ==> err == Clear && out == Look(disks, id)
      ensures !fault.Fine? ==> err == Failed(fault.text)
    {
      if id in disks {
        out := Some(disks[id]);
      } else {
        out := None;
      }
      err := if fault.Fine? then Clear else Failed(fault.text);
    }

    method EnsureVolume(v: Volume, fault: Fault) returns (out: Disk, err: Trouble)
      modifies this
      ensures var o := Across(Look(old(disks), v.id), EnsuredVolume(v, Look(old(disks), v.id)), fault);
              disks == Put(old(disks), v.id, o.disk) && err == o.error && (err == Clear ==> o.disk == Some(out))
      // it is there, as large as desired and no smaller than before, and where it was attached; nothing else has moved
      ensures err == Clear <==> fault.Fine?
      ensures !fault.Before? ==>
        && v.id in disks && disks[v.id].size >= v.desired
        && if v.id in old(disks)
           then disks[v.id] == old(disks)[v.id].(size := disks[v.id].size)
                && disks[v.id].size == (if v.desired > old(disks)[v.id].size then v.desired else old(disks)[v.id].size)
           else disks[v.id] == Disk(v.id, "platform-" + v.id, if v.desired > 0 then v.desired else 0, "", "")
      ensures fault.Before? ==> disks == old(disks)
      ensures disks - {v.id} == old(disks) - {v.id}
    {
      out := Disk(v.id, DeviceKeyOf(v.id), 0, "", "");
      if fault.Before? {
        return out, Failed(fault.text);
      }
      if v.id in disks {
        out := disks[v.id];
      }
      if v.desired > out.size {
        out := out.(size := v.desired);
      }
      disks := disks[v.id := out];
      err := if fault.After? then Failed(fault.text) else Clear;
    }

    method DeleteVolume(id: string, fault: Fault) returns (err: Trouble)
      modifies this
      ensures var o := Across(Look(old(disks), id), Deleted(Look(old(disks), id)), fault);
              disks == Put(old(disks), id, o.disk) && err == o.error
      // an attached disk stays; any other is gone once the call has had its effect
      ensures disks == if fault.Before? || (id in old(disks) && old(disks)[id].instance != "") then old(disks)
          else old(disks) - {id}
      ensures err == Clear <==> fault.Fine? && id !in disks
    {
      if fault.Before? {
        return Failed(fault.text);
      }
      if id in disks && disks[id].instance != "" {
        return StillAttached;
      }
      disks := disks - {id};
      err := if fault.After? then Failed(fault.text) else Clear;
    }

    method EnsureAttached(id: string, vm: string, attachment: string, fault: Fault) returns (err: Trouble)
      modifies this
      ensures var o := Across(Look(old(disks), id), Attached(Look(old(disks), id), vm, attachment), fault);
              disks == Put(old(disks), id, o.disk) && err == o.error
      // one holder at a time: only a disk that is free, or already held by this attachment, is attached
      ensures var granted := id in old(disks) &&
                (old(disks)[id].instance == ""
                    || (old(disks)[id].instance == vm && old(disks)[id].attachment == attachment));
              var after := if granted then old(disks)[id := old(disks)[id].(instance := vm, attachment := attachment)]
                           else old(disks);
              && disks == (if fault.Before? then old(disks) else after)
              && (err == Clear <==> granted && fault.Fine?)
    {
      if fault.Before? {
        return Failed(fault.text);
      }
      if id !in disks {
        return DiskMissing;
      }
      var d := disks[id];
      if d.instance != "" && (d.instance != vm || d.attachment != attachment) {
        return WriterConflict;
      }
      d := d.(instance := vm);
      d := d.(attachment := attachment);
      disks := disks[id := d];
      err := if fault.After? then Failed(fault.text) else Clear;
    }

    method EnsureDetached(id: string, vm: string, attachment: string, fault: Fault) returns (err: Trouble)
      modifies this
      ensures var o := Across(Look(old(disks), id), Detached(Look(old(disks), id), vm, attachment), fault);
              disks == Put(old(disks), id, o.disk) && err == o.error
      // a holder is detached only by its own attachment; what is free or missing already is what was wanted
      ensures var held := id in old(disks) && old(disks)[id].instance != "";
              var mine := held && old(disks)[id].instance == vm && old(disks)[id].attachment == attachment;
              var after := if mine then old(disks)[id := old(disks)[id].(instance := "", attachment := "")]
                           else old(disks);
              && disks == (if fault.Before? then old(disks) else after)
              && (err == Clear <==> fault.Fine? && (mine || !held))
    {
      if fault.Before? {
        return Failed(fault.text);
      }
      if id !in disks || disks[id].instance == "" {
        return if fault.After? then Failed(fault.text) else Clear;
      }
      var d := disks[id];
      if d.instance != vm || d.attachment != attachment {
        return IdentityMismatch;
      }
      d := d.(instance := "");
      d := d.(attachment := "");
      disks := disks[id := d];
      err := if fault.After? then Failed(fault.text) else Clear;
    }
  }
}
