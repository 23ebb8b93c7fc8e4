/** The Internet checksum of RFC 1071, as a sum of big-endian 16-bit words folded with end-around carry. */
module Checksum {

  type Byte = b: int | 0 <= b < 256
  type Bytes = seq<Byte>

  function Word(hi: Byte, lo: Byte): nat {
    hi * 256 + lo
  }

  function HighByte(w: nat): Byte {
    w / 256 % 256
  }

  function LowByte(w: nat): Byte {
    w % 256
  }

  /** The sum of the words; an odd last byte counts as the high byte of a word. */
  function WordSum(s: Bytes): nat {
    if |s| == 0 then 0
    else if |s| == 1 then Word(s[0], 0)
    else Word(s[0], s[1]) + WordSum(s[2..])
  }

  /** Add the carries back in until the sum fits one word. */
  function Fold(n: nat): nat
    ensures Fold(n) < 0x10000
  {
    if n < 0x10000 then n else Fold(n / 0x10000 + n % 0x10000)
  }

  function Complement(n: nat): nat
    requires n < 0x10000
  {
    0xffff - n
  }

  /** Folding computes the residue modulo 0xffff, with zero only for an empty sum. */
  lemma {:induction false} FoldClosedForm(n: nat)
    ensures Fold(n) == if n == 0 then 0 else (n - 1) % 0xffff + 1
  {
    if n < 0x10000 {
      if n > 0 {
        assert (n - 1) % 0xffff == n - 1;
      }
    } else {
      var m := n / 0x10000 + n % 0x10000;
      FoldClosedForm(m);
      var q := n / 0x10000;
      assert n - 1 == (m - 1) + q * 0xffff;
      ModShift(m - 1, q);
    }
  }

  lemma {:induction false} ModShift(a: nat, q: nat)
    ensures (a + q * 0xffff) % 0xffff == a % 0xffff
  {
    if q > 0 {
      ModShift(a, q - 1);
      var b := a + (q - 1) * 0xffff;
      assert a + q * 0xffff == b + 0xffff;
      assert (b + 0xffff) % 0xffff == b % 0xffff;
    }
  }

  /** Adding the complement of a folded sum always brings the total to all ones. */
  lemma ComplementCompletes(n: nat)
    ensures Fold(n + Complement(Fold(n))) == 0xffff
  {
    FoldClosedForm(n);
    FoldClosedForm(n + Complement(Fold(n)));
    if n > 0 {
      var q := (n - 1) / 0xffff;
      assert n - 1 == q * 0xffff + (n - 1) % 0xffff;
      assert n + Complement(Fold(n)) - 1 == 0xfffe + q * 0xffff;
      ModShift(0xfffe, q);
    }
  }

  lemma {:induction false} WordSumConcat(a: Bytes, b: Bytes)
    requires |a| % 2 == 0
    ensures WordSum(a + b) == WordSum(a) + WordSum(b)
  {
    if a == [] {
      assert a + b == b;
    } else {
      WordSumConcat(a[2..], b);
      assert (a + b)[2..] == a[2..] + b;
    }
  }

  /** The sum leaving out the word with index `skip`, as the library computes it. */
  function WordSumSkipping(s: Bytes, skip: nat): nat {
    if 2 * skip + 2 <= |s| then WordSum(s[..2 * skip]) + WordSum(s[2 * skip + 2..]) else WordSum(s)
  }

  lemma SkipIsZeroed(s: Bytes, skip: nat)
    requires 2 * skip + 2 <= |s|
    ensures WordSum(s) == WordSumSkipping(s, skip) + Word(s[2 * skip], s[2 * skip + 1])
  {
    hide Word;
    var k := 2 * skip;
    var tail := s[k..];
    assert s == s[..k] + tail;
    WordSumConcat(s[..k], tail);
    assert WordSum(tail) == Word(tail[0], tail[1]) + WordSum(tail[2..]);
    assert tail[2..] == s[k + 2..];
  }

  lemma OneWord(hi: Byte, lo: Byte)
    ensures WordSum([hi, lo]) == Word(hi, lo)
  {
    assert [hi, lo][2..] == [];
  }

  lemma WordRoundTrip(w: nat)
    requires w < 0x10000
    ensures Word(HighByte(w), LowByte(w)) == w
  {
  }

  /** The message with its checksum word, at index `at`, filled in; `extra` is summed but not part of the message. */
  function Sealed(s: Bytes, at: nat, extra: nat): Bytes
    requires 2 * at + 2 <= |s|
  {
    var c := Complement(Fold(extra + WordSumSkipping(s, at)));
    s[..2 * at] + [HighByte(c), LowByte(c)] + s[2 * at + 2..]
  }

  /** Only the checksum word changes, and it is the one written. */
  lemma SealedFrame(s: Bytes, at: nat, extra: nat)
    requires 2 * at + 2 <= |s|
    ensures var t := Sealed(s, at, extra);
            && |t| == |s|
            && t[..2 * at] == s[..2 * at] && t[2 * at + 2..] == s[2 * at + 2..]
            && Word(t[2 * at], t[2 * at + 1]) == Complement(Fold(extra + WordSumSkipping(s, at)))
  {
    hide WordSumSkipping, Fold, Word, HighByte, LowByte;
    var c := Complement(Fold(extra + WordSumSkipping(s, at)));
    WordRoundTrip(c);
    var before, middle, after := s[..2 * at], [HighByte(c), LowByte(c)], s[2 * at + 2..];
    assert Sealed(s, at, extra) == before + middle + after;
  }

  /**
   Filling in the checksum makes the whole message, together with `extra`, sum to all ones; the word filled in is the
   one a receiver recomputes; and it is zero exactly when the rest already summed to all ones.
   */
  lemma SealedSums(s: Bytes, at: nat, extra: nat)
    requires 2 * at + 2 <= |s|
    ensures var t := Sealed(s, at, extra);
            && |t| == |s|
            && (forall i :: 0 <= i < |s| && i != 2 * at && i != 2 * at + 1 ==> t[i] == s[i])
            && WordSumSkipping(t, at) == WordSumSkipping(s, at)
            && Word(t[2 * at], t[2 * at + 1]) == Complement(Fold(extra + WordSumSkipping(t, at)))
            && Fold(extra + WordSum(t)) == 0xffff
            && (Word(t[2 * at], t[2 * at + 1]) == 0 <==> Fold(extra + WordSumSkipping(s, at)) == 0xffff)
  {
    hide Sealed, WordSum, Fold, Word;
    var t := Sealed(s, at, extra);
    SealedFrame(s, at, extra);
    forall i | 0 <= i < |s| && i != 2 * at && i != 2 * at + 1
      ensures t[i] == s[i]
    {
      SameParts(s, t, at, i);
    }
    SkipIsZeroed(t, at);
    ComplementCompletes(extra + WordSumSkipping(s, at));
  }

  lemma SameParts(s: Bytes, t: Bytes, at: nat, i: nat)
    requires |t| == |s| && 2 * at + 2 <= |s| && i < |s| && i != 2 * at && i != 2 * at + 1
    requires t[..2 * at] == s[..2 * at] && t[2 * at + 2..] == s[2 * at + 2..]
    ensures t[i] == s[i]
  {
    if i < 2 * at {
      assert t[..2 * at][i] == s[..2 * at][i];
    } else {
      assert t[2 * at + 2..][i - 2 * at - 2] == s[2 * at + 2..][i - 2 * at - 2];
    }
  }
}
