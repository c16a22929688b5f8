/** What the CSI adapters read from and write to their callers: capabilities and the publish context. */
module Wire {
  import opened Model

  // ----- volume capabilities -----

  datatype Access = NoAccess | BlockAccess | MountAccess(fsType: string, flags: seq<string>, group: string)

  /** `singleWriter` is false for a missing capability, a missing access mode and every other mode. */
  datatype Capability = Capability(singleWriter: bool, access: Access)

  datatype Mode = Mode(mode: string, fsType: string)

  function ModeOf(c: Capability): (r: Option<Mode>)
    ensures r.Some? <==>
      && c.singleWriter
      && (c.access.BlockAccess?
          || (c.access.MountAccess? && c.access.fsType in {"", "ext4", "xfs"} && c.access.flags == []
              && c.access.group == ""))
    ensures r.Some? ==>
      r.value == if c.access.BlockAccess? then Mode("block", "")
                 else Mode("mount", if c.access.fsType == "" then "ext4" else c.access.fsType)
  {
    if !c.singleWriter then None
    else
      match c.access
      case BlockAccess => Some(Mode("block", ""))
      case NoAccess => None
      case MountAccess(t, flags, group) =>
        var fs := if t == "" then "ext4" else t;
        if (fs != "ext4" && fs != "xfs") || |flags| > 0 || group != "" then None else Some(Mode("mount", fs))
  }

  // ----- decimal generations -----

  const UINT64_LIMIT := 0x1_0000_0000_0000_0000

  predicate IsDigit(c: char) { '0' <= c <= '9' }

  function FormatUint(n: nat): (s: string)
    ensures |s| > 0
  {
    var last := ['0' + (n % 10) as char];
    if n < 10 then last else FormatUint(n / 10) + last
  }

  /** The number a string of digits stands for, whatever its size. */
  function Decimal(s: string): Option<nat> {
    if s == "" then Some(0)
    else
      var n, c := Decimal(s[..|s| - 1]), s[|s| - 1];
      if n.None? || !IsDigit(c) then None else Some(10 * n.value + (c - '0') as nat)
  }

  function ParseUint(s: string): Option<nat> {
    var n := Decimal(s);
    if s == "" || n.None? || n.value >= UINT64_LIMIT then None else n
  }

  lemma {:induction false} DecimalReadsBack(n: nat)
    ensures Decimal(FormatUint(n)) == Some(n)
  {
    var s, last := FormatUint(n), ['0' + (n % 10) as char];
    if n < 10 {
      assert s == last && s[..|s| - 1] == "";
    } else {
      DecimalReadsBack(n / 10);
      assert s[..|s| - 1] == FormatUint(n / 10);
    }
  }

  /** Every generation survives the trip through the publish context. */
  lemma GenerationReadsBack(n: nat)
    requires n < UINT64_LIMIT
    ensures ParseUint(FormatUint(n)) == Some(n)
  {
    DecimalReadsBack(n);
  }

  // ----- the attachment proof -----

  const ATTACHMENT_ID := "attachmentID"
  const ATTACHMENT_GENERATION := "attachmentGeneration"

  function At(m: map<string, string>, k: string): string { if k in m then m[k] else "" }

  function ContextOf(a: Attachment): map<string, string> {
    map[ATTACHMENT_ID := a.id, ATTACHMENT_GENERATION := FormatUint(a.link.generation)]
  }

  function ProofOf(volume: string, context: map<string, string>): Option<Request> {
    var g := ParseUint(At(context, ATTACHMENT_GENERATION));
    if g.None? || g.value == 0 || !ValidID(At(context, ATTACHMENT_ID)) then None
    else Some(BLANK.(volume := volume, attachment := At(context, ATTACHMENT_ID), generation := g.value))
  }

  predicate AllDigits(s: string) { forall i :: 0 <= i < |s| ==> '0' <= s[i] <= '9' }

  /** Text stands for a number exactly when it is all digits. */
  lemma {:induction false} DecimalIff(s: string)
    ensures Decimal(s).Some? <==> AllDigits(s)
    decreases |s|
  {
    if s != "" {
      var n := |s| - 1;
      DecimalIff(s[..n]);
      assert forall i :: 0 <= i < n ==> s[..n][i] == s[i];
    }
  }

  /** Each digit counts for its place. */
  lemma DecimalPlaces(s: string, c: char)
    requires AllDigits(s) && '0' <= c <= '9'
    ensures Decimal("") == Some(0)
    ensures Decimal(s).Some? && Decimal(s + [c]) == Some(10 * Decimal(s).value + (c as int - '0' as int))
  {
    DecimalIff(s);
    assert (s + [c])[..|s + [c]| - 1] == s;
  }

  /** A context proves something exactly when its generation is a number from 1 to the largest uint64, in digits
      alone, and its attachment is a well-formed identifier; and then it proves that. */
  lemma ProofIff(volume: string, context: map<string, string>)
    ensures var g, x := At(context, ATTACHMENT_GENERATION), At(context, ATTACHMENT_ID);
            && (ProofOf(volume, context).Some? <==>
                 g != "" && AllDigits(g) && Decimal(g).Some? && 1 <= Decimal(g).value < 0x1_0000_0000_0000_0000
                     && ValidID(x))
            && (ProofOf(volume, context).Some? ==>
                 ProofOf(volume, context).value
                     == BLANK.(volume := volume, attachment := x, generation := Decimal(g).value))
  {
    DecimalIff(At(context, ATTACHMENT_GENERATION));
    hide ValidID;
  }

  /** The context an attachment is published with is the proof of exactly that attachment. */
  lemma ContextReadsBack(a: Attachment)
    requires ValidID(a.id) && 1 <= a.link.generation < UINT64_LIMIT
    ensures ProofOf(a.link.volume, ContextOf(a))
         == Some(BLANK.(volume := a.link.volume, attachment := a.id, generation := a.link.generation))
  {
    GenerationReadsBack(a.link.generation);
    assert ATTACHMENT_ID != ATTACHMENT_GENERATION by { assert |ATTACHMENT_ID| != |ATTACHMENT_GENERATION|; }
  }
}
