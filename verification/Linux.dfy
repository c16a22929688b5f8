/** The real host's decision about a device before it mounts it: use it, format it first, or refuse. */
module Linux {
  import opened Model
  import opened Hosts

  datatype Verdict = MountIt | FormatFirst | Refuse

  /** `signatures` are the types found on the device, partition tables included. */
  function FormatRequired(signatures: seq<string>, fs: string, allowed: bool): (v: Verdict)
    ensures v.FormatFirst? <==> (fs == "ext4" || fs == "xfs") && signatures == [] && allowed
    ensures v.MountIt? <==>
      && (fs == "ext4" || fs == "xfs") && signatures != []
      && forall i :: 0 <= i < |signatures| ==> signatures[i] == fs
  {
    if fs != "ext4" && fs != "xfs" then Refuse
    else if |signatures| == 0 then if allowed then FormatFirst else Refuse
    else if exists i :: 0 <= i < |signatures| && signatures[i] != fs then Refuse
    else MountIt
  }

  /** The same decision as a loop over the signatures. */
  method DecideFormat(signatures: seq<string>, fs: string, allowed: bool) returns (format: bool, err: bool)
    ensures err <==> FormatRequired(signatures, fs, allowed).Refuse?
    ensures !err ==> (format <==> FormatRequired(signatures, fs, allowed).FormatFirst?)
  {
    if fs != "ext4" && fs != "xfs" {
      return false, true;
    }
    if |signatures| == 0 {
      return allowed, !allowed;
    }
    for n := 0 to |signatures|
      invariant forall i :: 0 <= i < n ==> signatures[i] == fs
    {
      if signatures[n] != fs {
        return false, true;
      }
    }
    return false, false;
  }

  /** A block volume is never probed, and neither is a device already mounted where it should be. */
  predicate Probes(v: Volume, path: string, mounts: Mounts) {
    v.spec.mode != "block" && path !in mounts
  }
}
