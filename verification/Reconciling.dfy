/** One item of a reconcile pass: what it does to the record, and to the disk it addresses. */
module Reconciling {
  import opened Model
  import opened Provider

  /** The faults met by an item's observation and by its effect. */
  datatype Faults = Faults(get: Fault, call: Fault)

  const NO_FAULTS := Faults(Fine, Fine)

  datatype VolumeStep = VolumeStep(volume: Volume, disk: Option<Disk>)

  /** The disk after the item has made sure it exists at the desired size; `error` tells whether the item knows. */
  function Provisioned(v: Volume, disk: Option<Disk>, f: Faults): Outcome {
    if disk.Some? && disk.value.size >= v.desired then Outcome(disk, Clear)
    else Across(disk, EnsuredVolume(v, disk), f.call)
  }

  function VolumeItem(v: Volume, busy: bool, disk: Option<Disk>, f: Faults): (r: VolumeStep)
    ensures r.volume == v.(state := r.volume.state, deviceKey := r.volume.deviceKey,
                           size := r.volume.size, lastError := r.volume.lastError)
  {
    var w := v.(lastError := Clear);
    if v.state == DELETED then VolumeStep(v, disk)
    else if v.deleteRequested then
      if busy then VolumeStep(w, disk)
      else
        var o := Across(disk, Deleted(disk), f.call);
        VolumeStep(if o.error == Clear then w.(state := DELETED) else w.(lastError := o.error), o.disk)
    else if !f.get.Fine? then VolumeStep(w.(lastError := Failed(f.get.text)), disk)
    else if disk.None? && v.state != CREATING then VolumeStep(w.(lastError := DiskGone), disk)
    else
      var o := Provisioned(v, disk, f);
      if o.error != Clear then VolumeStep(w.(lastError := o.error), o.disk)
      else
        var d := o.disk.value;
        if v.deviceKey != "" && v.deviceKey != d.deviceKey then VolumeStep(w.(lastError := DeviceChanged), o.disk)
        else VolumeStep(w.(size := d.size, deviceKey := d.deviceKey, state := AVAILABLE), o.disk)
  }

  datatype AttachmentStep = AttachmentStep(attachment: Attachment, disk: Option<Disk>)

  predicate AttachedBy(disk: Option<Disk>, a: Attachment) {
    disk.Some? && HeldBy(disk.value, a.link.instance, a.id)
  }

  /** `volumeError` is the error the volume pass left on the attachment's volume. */
  function AttachmentItem(a: Attachment, active: bool, volumeError: Trouble, disk: Option<Disk>,
                          f: Faults): (r: AttachmentStep)
    ensures r.attachment == a.(state := r.attachment.state, lastError := r.attachment.lastError)
  {
    var b := a.(lastError := Clear);
    if !Live(a) then AttachmentStep(a, disk)
    else if a.deleteRequested then
      if a.uses != {} then AttachmentStep(b, disk)
      else
        var o := Across(disk, Detached(disk, a.link.instance, a.id), f.call);
        AttachmentStep(if o.error == Clear then b.(state := DETACHED) else b.(lastError := o.error), o.disk)
    else if !active then AttachmentStep(b.(lastError := Fencing), disk)
    else if !f.get.Fine? then AttachmentStep(b.(lastError := Failed(f.get.text)), disk)
    else if a.state == ATTACHED && a.uses != {} && !AttachedBy(disk, a)
    then AttachmentStep(b.(lastError := Drifted), disk)
    else if volumeError != Clear then AttachmentStep(b, disk)
    else
      var o := Across(disk, Attached(disk, a.link.instance, a.id), f.call);
      AttachmentStep(if o.error == Clear then b.(state := ATTACHED) else b.(lastError := o.error), o.disk)
  }

  // ----- replay, item by item -----

  lemma VolumeReplayed(v: Volume, busy: bool, disk: Option<Disk>, f: Faults)
    ensures VolumeItem(v, busy, VolumeItem(v, busy, disk, f).disk, NO_FAULTS) == VolumeItem(v, busy, disk, NO_FAULTS)
  {
    if v.deleteRequested || v.state == DELETED {
    } else if f.get.Fine? && (disk.Some? || v.state == CREATING) {
      ProvisionedReplayed(v, disk, f);
    }
  }

  lemma ProvisionedReplayed(v: Volume, disk: Option<Disk>, f: Faults)
    ensures Provisioned(v, Provisioned(v, disk, f).disk, NO_FAULTS) == Provisioned(v, disk, NO_FAULTS)
  {
  }

  lemma ErrorForgotten(v: Volume, e: Trouble, busy: bool, disk: Option<Disk>, f: Faults)
    requires v.state != DELETED
    ensures VolumeItem(v.(lastError := e), busy, disk, f) == VolumeItem(v, busy, disk, f)
  {
    assert v.(lastError := e).(lastError := Clear) == v.(lastError := Clear);
  }

  lemma VolumeCommitted(v: Volume, busy: bool, disk: Option<Disk>, f: Faults)
    ensures var o := VolumeItem(v, busy, disk, f);
            VolumeItem(o.volume, busy, o.disk, NO_FAULTS) == VolumeItem(v, busy, disk, NO_FAULTS)
  {
    var o := VolumeItem(v, busy, disk, f);
    VolumeReplayed(v, busy, disk, f);
    if v.state != DELETED {
      if o.volume == v.(lastError := o.volume.lastError) {
        ErrorForgotten(v, o.volume.lastError, busy, o.disk, NO_FAULTS);
      } else if !v.deleteRequested {
        assert o.volume.state == AVAILABLE && o.disk.value.size >= v.desired;
      }
    }
  }

  /** Where the disk is attached does not matter to the volume pass, unless it is to be deleted. */
  lemma VolumeIgnoresAttachment(v: Volume, busy: bool, d: Disk, f: Faults, vm: string, attachment: string)
    requires !v.deleteRequested
    ensures var o := VolumeItem(v, busy, Some(d), f);
            && o.disk.Some? && HeldBy(o.disk.value, d.instance, d.attachment)
            && VolumeItem(v, busy, Some(d.(instance := vm, attachment := attachment)), f)
            == VolumeStep(o.volume, Some(o.disk.value.(instance := vm, attachment := attachment)))
  {
  }

  lemma AttachmentReplayed(a: Attachment, active: bool, error: Trouble, error': Trouble, disk: Option<Disk>, f: Faults)
    requires error == Clear ==> error' == Clear
    ensures var o, done := AttachmentItem(a, active, error, disk, f),
        AttachmentItem(a, active, error', disk, NO_FAULTS);
            && AttachmentItem(a, active, error', o.disk, NO_FAULTS) == done
            && AttachmentItem(o.attachment, active, error', o.disk, NO_FAULTS) == done
  {
  }

  lemma VolumeErrorsHeal(v: Volume, busy: bool, disk: Option<Disk>, f: Faults)
    requires VolumeItem(v, busy, disk, f).volume.lastError == Clear && v.state != DELETED
    ensures VolumeItem(v, busy, disk, NO_FAULTS).volume.lastError == Clear
  {
  }

  /** An attachment item writes nothing on its disk but where the disk is attached. */
  lemma AttachmentItemFrame(a: Attachment, active: bool, error: Trouble, disk: Option<Disk>, f: Faults)
    ensures var d := AttachmentItem(a, active, error, disk, f).disk;
            && (d.Some? <==> disk.Some?)
            && (d.Some? ==> d.value == disk.value.(instance := d.value.instance, attachment := d.value.attachment))
  {
  }

  /** Nothing but presence and place of attachment matters to an attachment item. */
  lemma AttachmentIgnoresSize(a: Attachment, active: bool, error: Trouble, d: Disk, e: Disk, f: Faults)
    requires HeldBy(d, e.instance, e.attachment)
    ensures var o, q := AttachmentItem(a, active, error, Some(d), f), AttachmentItem(a, active, error, Some(e), f);
            && o.attachment == q.attachment && o.disk.Some? && q.disk.Some?
            && HeldBy(o.disk.value, q.disk.value.instance, q.disk.value.attachment)
  {
  }

  // ----- one volume, its live attachment and its disk, through both passes -----

  /** A reconcile run touches a volume's cell and nothing else of that cell's neighbours. */
  datatype Cell = Cell(volume: Volume, attachment: Option<Attachment>, disk: Option<Disk>)

  predicate CellBusy(c: Cell) { c.attachment.Some? && Live(c.attachment.value) }

  predicate CellOk(c: Cell) { CellBusy(c) ==> !c.volume.deleteRequested && c.volume.state != DELETED }

  function PassVolume(c: Cell, f: Faults): Cell {
    var o := VolumeItem(c.volume, CellBusy(c), c.disk, f);
    c.(volume := o.volume, disk := o.disk)
  }

  function PassAttachment(c: Cell, active: bool, f: Faults): Cell {
    if c.attachment.None? then c
    else
      var o := AttachmentItem(c.attachment.value, active, c.volume.lastError, c.disk, f);
      c.(attachment := Some(o.attachment), disk := o.disk)
  }

  function RunCell(c: Cell, active: bool, fv: Faults, fa: Faults): Cell {
    PassAttachment(PassVolume(c, fv), active, fa)
  }

  /** How far a run got with a cell before it stopped. */
  datatype Progress = Untouched | VolumeDone | BothDone

  function Partly(c: Cell, active: bool, fv: Faults, fa: Faults, how: Progress): Cell {
    match how
    case Untouched => c
    case VolumeDone => PassVolume(c, fv)
    case BothDone => RunCell(c, active, fv, fa)
  }

  /** One half of the replay: what the second, faultless run finds after a first run with any faults, whether or not
      the first run's beliefs (`v'`, `a'`) were committed. */
  lemma ReplayLive(v: Volume, a: Attachment, disk: Option<Disk>, active: bool, fv: Faults, fa: Faults)
    requires Live(a) && !v.deleteRequested && v.state != DELETED
    ensures var o := VolumeItem(v, true, disk, fv);
            var q := AttachmentItem(a, active, o.volume.lastError, o.disk, fa);
            var done := VolumeItem(v, true, disk, NO_FAULTS);
            var last := AttachmentItem(a, active, done.volume.lastError, done.disk, NO_FAULTS);
            var again := VolumeItem(v, true, q.disk, NO_FAULTS);
            && again.volume == done.volume
            && AttachmentItem(a, active, again.volume.lastError, again.disk, NO_FAULTS) == last
            && AttachmentItem(q.attachment, active, again.volume.lastError, again.disk, NO_FAULTS) == last
            && VolumeItem(v, true, o.disk, NO_FAULTS) == done
  {
    var o := VolumeItem(v, true, disk, fv);
    var q := AttachmentItem(a, active, o.volume.lastError, o.disk, fa);
    var done := VolumeItem(v, true, disk, NO_FAULTS);
    VolumeReplayed(v, true, disk, fv);
    AttachmentItemFrame(a, active, o.volume.lastError, o.disk, fa);
    if o.volume.lastError == Clear { VolumeErrorsHeal(v, true, disk, fv); }
    if o.disk.Some? {
      var d, e := o.disk.value, q.disk.value;
      VolumeIgnoresAttachment(v, true, d, NO_FAULTS, e.instance, e.attachment);
      assert VolumeItem(v, true, Some(d), NO_FAULTS) == done;
      AttachmentIgnoresSize(a, active, o.volume.lastError, d, done.disk.value, fa);
      AttachmentItemFrame(a, active, o.volume.lastError, done.disk, fa);
      assert VolumeItem(v, true, q.disk, NO_FAULTS).disk
          == AttachmentItem(a, active, o.volume.lastError, done.disk, fa).disk;
      AttachmentReplayed(a, active, o.volume.lastError, done.volume.lastError, done.disk, fa);
    }
  }

  lemma BeliefsForgotten(v: Volume, disk: Option<Disk>, fv: Faults, d: Option<Disk>, busy: bool)
    requires !v.deleteRequested && v.state != DELETED
    requires var o := VolumeItem(v, true, disk, fv);
             && (d.Some? <==> o.disk.Some?)
             && (d.Some? ==> d.value == o.disk.value.(instance := d.value.instance, attachment := d.value.attachment))
    ensures VolumeItem(VolumeItem(v, true, disk, fv).volume, busy, d, NO_FAULTS) == VolumeItem(v, true, d, NO_FAULTS)
  {
    var o := VolumeItem(v, true, disk, fv);
    VolumeCommitted(v, true, disk, fv);
    VolumeReplayed(v, true, disk, fv);
    if d.Some? {
      VolumeIgnoresAttachment(v, true, o.disk.value, NO_FAULTS, d.value.instance, d.value.attachment);
      VolumeIgnoresAttachment(o.volume, true, o.disk.value, NO_FAULTS, d.value.instance, d.value.attachment);
    }
  }

  /** Stop anywhere, keep only what the cloud did, run again without faults: nothing shows that it ever happened. */
  lemma ReplayDropped(c: Cell, active: bool, fv: Faults, fa: Faults, how: Progress)
    requires CellOk(c)
    ensures RunCell(c.(disk := Partly(c, active, fv, fa, how).disk), active, NO_FAULTS, NO_FAULTS)
         == RunCell(c, active, NO_FAULTS, NO_FAULTS)
  {
    VolumeReplayed(c.volume, CellBusy(c), c.disk, fv);
    if CellBusy(c) {
      ReplayLive(c.volume, c.attachment.value, c.disk, active, fv, fa);
    }
  }

  /** The same when the faulty run commits what it believes. */
  lemma ReplayCommitted(c: Cell, active: bool, fv: Faults, fa: Faults)
    requires CellOk(c)
    ensures RunCell(RunCell(c, active, fv, fa), active, NO_FAULTS, NO_FAULTS)
         == RunCell(c, active, NO_FAULTS, NO_FAULTS)
  {
    VolumeCommitted(c.volume, CellBusy(c), c.disk, fv);
    if CellBusy(c) {
      var a := c.attachment.value;
      var o := VolumeItem(c.volume, true, c.disk, fv);
      var q := AttachmentItem(a, active, o.volume.lastError, o.disk, fa);
      ReplayLive(c.volume, a, c.disk, active, fv, fa);
      AttachmentItemFrame(a, active, o.volume.lastError, o.disk, fa);
      BeliefsForgotten(c.volume, c.disk, fv, q.disk, Live(q.attachment));
    }
  }
}
