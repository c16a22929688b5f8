/** The audit bucket and the fixed-width keys that keep its entries apart and in order. */
module Audit {
  import opened Model

  const WIDTH := 16
  const SEQUENCE_LIMIT := 0x1_0000_0000_0000_0000

  function Digit(d: nat): char
    requires d < 16
  {
    "0123456789abcdef"[d]
  }

  /** The last `width` hexadecimal digits of `n`, most significant first. */
  function Hex(n: nat, width: nat): (s: string)
    ensures |s| == width
  {
    if width == 0 then "" else Hex(n / 16, width - 1) + [Digit(n % 16)]
  }

  function Pow16(width: nat): (p: nat)
    ensures p > 0
  {
    if width == 0 then 1 else 16 * Pow16(width - 1)
  }

  /** How the database orders keys of one length: by the first character in which they differ. */
  ghost predicate Precedes(s: string, t: string) {
    exists i :: 0 <= i < |s| && i < |t| && s[..i] == t[..i] && s[i] < t[i]
  }

  lemma DigitOrder(c: nat, d: nat)
    requires c < d < 16
    ensures Digit(c) < Digit(d)
  {
  }

  /** Padding keeps order: a smaller number has the smaller text. */
  lemma {:induction false} HexAscends(m: nat, n: nat, width: nat)
    requires m < n < Pow16(width)
    ensures Precedes(Hex(m, width), Hex(n, width))
  {
    var s, t := Hex(m, width), Hex(n, width);
    var k := width - 1;
    assert s[..k] == Hex(m / 16, k) && t[..k] == Hex(n / 16, k);
    if m / 16 < n / 16 {
      HexAscends(m / 16, n / 16, k);
      var i :| 0 <= i < k && s[..k][..i] == t[..k][..i] && s[..k][i] < t[..k][i];
      assert s[..i] == s[..k][..i] && t[..i] == t[..k][..i];
    } else {
      DigitOrder(m % 16, n % 16);
      assert s[..k] == t[..k] && s[k] < t[k];
    }
  }

  lemma PrecedesAsymmetric(s: string, t: string)
    requires Precedes(s, t)
    ensures !Precedes(t, s)
  {
    var i :| 0 <= i < |s| && i < |t| && s[..i] == t[..i] && s[i] < t[i];
    forall j | 0 <= j < |t| && j < |s| && t[..j] == s[..j] ensures s[j] <= t[j] {
      assert j < i ==> s[..i][j] == s[j] && t[..i][j] == t[j];
    }
  }

  /** Over every uint64: the order of keys is the order of numbers, and equal keys come from equal numbers. */
  lemma HexFaithful(m: nat, n: nat)
    requires m < SEQUENCE_LIMIT && n < SEQUENCE_LIMIT
    ensures m < n <==> Precedes(Hex(m, WIDTH), Hex(n, WIDTH))
    ensures m == n <==> Hex(m, WIDTH) == Hex(n, WIDTH)
  {
    SixteenDigits();
    if m < n {
      HexAscends(m, n, WIDTH);
      PrecedesAsymmetric(Hex(m, WIDTH), Hex(n, WIDTH));
    } else if n < m {
      HexAscends(n, m, WIDTH);
      PrecedesAsymmetric(Hex(n, WIDTH), Hex(m, WIDTH));
    }
  }

  lemma SixteenDigits()
    ensures Pow16(WIDTH) == SEQUENCE_LIMIT
  {
    assert Pow16(4) == 0x1_0000;
    assert Pow16(8) == 0x1_0000 * 0x1_0000;
    assert Pow16(12) == 0x1_0000 * 0x1_0000 * 0x1_0000;
  }

  /** Fills the buffer from its end; for unsigned `n`, `n & 15` is `n % 16` and `n >> 4` is `n / 16`. */
  method FormatSequence(n: nat) returns (s: string)
    requires n < SEQUENCE_LIMIT
    ensures s == Hex(n, WIDTH)
  {
    var b := new char[WIDTH](_ => '0');
    var rest, i := n, WIDTH - 1;
    while i >= 0
      invariant -1 <= i < WIDTH
      invariant Hex(n, WIDTH) == Hex(rest, i + 1) + b[i + 1..]
    {
      b[i] := "0123456789abcdef"[rest % 16];
      assert b[i..] == [b[i]] + b[i + 1..];
      rest := rest / 16;
      i := i - 1;
    }
    s := b[..];
  }

  datatype Entry = Entry(principal: Principal, op: Op, request: Request, reply: Reply)

  class AuditLog {
    var entries: map<string, Entry>
    var sequence: nat

    ghost predicate Numbered(key: string, n: nat) {
      |key| >= WIDTH && key[|key| - WIDTH..] == Hex(n, WIDTH)
    }

    /** Every key ends in a number the bucket has already given out. */
    ghost predicate Valid()
      reads this
    {
      && sequence < SEQUENCE_LIMIT
      && forall k :: k in entries ==> exists n :: 1 <= n <= sequence && Numbered(k, n)
    }

    constructor ()
      ensures Valid() && entries == map[] && sequence == 0
    {
      entries, sequence := map[], 0;
    }

    /** Adds one entry and overwrites none, whatever the clock says. */
    method Append(when: string, e: Entry) returns (key: string)
      requires Valid() && sequence + 1 < SEQUENCE_LIMIT
      modifies this
      ensures Valid() && sequence == old(sequence) + 1
      ensures key == when + "/" + Hex(sequence, WIDTH)
      ensures key !in old(entries) && entries == old(entries)[key := e]
    {
      var n := sequence + 1;
      var digits := FormatSequence(n);
      key := when + "/" + digits;
      assert key[|key| - WIDTH..] == digits;
      forall k, m | k in entries && 1 <= m <= sequence && Numbered(k, m) ensures k != key {
        HexFaithful(m, n);
      }
      sequence := n;
      entries := entries[key := e];
      assert Numbered(key, n);
    }
  }
}
