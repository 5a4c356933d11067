// The Internet checksum: the full recompute of the packet fixtures (RFC 1071) and the
// incremental update of the BPF checksum helpers (section 3 of RFC 1624).
module Checksum {
  import opened Octets

  type Word = x: int | 0 <= x < 65536

  function Pair(high: Byte, low: Byte): Word {
    256 * (high as int) + low as int
  }

  /** The sum of the big-endian 16-bit words, an odd last byte padded with zero. */
  function WordSum(d: seq<Byte>): nat {
    if |d| == 0 then 0
    else if |d| == 1 then Pair(d[0], 0)
    else Pair(d[0], d[1]) + WordSum(d[2..])
  }

  /** The one representative of a sum modulo 65535 that end-around carry reaches: zero only for zero. */
  function Canon(sum: nat): (r: Word)
    ensures r == 0 <==> sum == 0
  {
    if sum < 65536 then sum else Canon(sum - 65535)
  }

  function Complement(w: Word): Word {
    65535 - w
  }

  function Bytes(w: Word): seq<Byte> {
    [w / 256, w % 256]
  }

  // ----- Full recompute -----

  /** checksum_add. */
  method ChecksumAdd(sum: nat, data: seq<Byte>) returns (r: nat)
    ensures r == sum + WordSum(data)
  {
    r := sum;
    var i := 0;
    while i + 1 < |data|
      invariant i <= |data| && i % 2 == 0
      invariant r + WordSum(data[i..]) == sum + WordSum(data)
    {
      assert data[i..][2..] == data[i + 2..];
      r := r + Pair(data[i], data[i + 1]);
      i := i + 2;
    }
    if i < |data| {
      r := r + Pair(data[i], 0);
    }
  }

  lemma {:induction false} CanonPlus(sum: nat, k: nat)
    ensures sum > 0 ==> Canon(sum + 65535 * k) == Canon(sum)
  {
    if k > 0 { CanonPlus(sum, k - 1); }
  }

  lemma FoldOnce(sum: nat)
    requires sum >= 65536
    ensures Canon(sum % 65536 + sum / 65536) == Canon(sum)
    ensures sum % 65536 + sum / 65536 < sum
  {
    var q, r := sum / 65536, sum % 65536;
    assert sum == q + r + 65535 * q;
    CanonPlus(q + r, q);
  }

  /** checksum_finish: the fold terminates on the representative, whatever the accumulator. */
  method ChecksumFinish(accumulated: nat) returns (r: Word)
    ensures r == Complement(Canon(accumulated))
    ensures Congruent(Complement(r), accumulated)
  {
    var sum: nat := accumulated;
    while sum / 65536 != 0
      invariant Canon(sum) == Canon(accumulated)
      decreases sum
    {
      FoldOnce(sum);
      sum := sum % 65536 + sum / 65536;
    }
    CanonCongruent(accumulated);
    r := 65535 - sum;
  }

  /** A 32-bit accumulator is wide enough for any packet the length fields can describe. */
  lemma {:induction false} SumFits(data: seq<Byte>)
    ensures 2 * WordSum(data) <= 65535 * (|data| + 1)
    ensures |data| <= 0x1_fffc ==> WordSum(data) < 0x1_0000_0000
  {
    if |data| >= 2 { SumFits(data[2..]); }
  }

  // ----- Sums of parts -----

  predicate Even(d: seq<Byte>) {
    |d| % 2 == 0
  }

  lemma {:induction false} SumJoins(a: seq<Byte>, b: seq<Byte>)
    requires Even(a)
    ensures WordSum(a + b) == WordSum(a) + WordSum(b)
  {
    if a == [] {
      assert a + b == b;
    } else {
      SumJoins(a[2..], b);
      assert (a + b)[2..] == a[2..] + b;
    }
  }

  lemma BytesSum(w: Word)
    ensures WordSum(Bytes(w)) == w
  {
  }

  /** bpf_skb_store_bytes. */
  function Patch(d: seq<Byte>, off: nat, b: seq<Byte>): (r: seq<Byte>)
    requires off + |b| <= |d|
    ensures |r| == |d|
  {
    d[..off] + b + d[off + |b|..]
  }

  lemma PatchByte(d: seq<Byte>, off: nat, b: seq<Byte>, i: nat)
    requires off + |b| <= |d| && i < |d|
    ensures Patch(d, off, b)[i] == if off <= i < off + |b| then b[i - off] else d[i]
  {
  }

  function Slice(d: seq<Byte>, off: nat, len: nat): seq<Byte>
    requires off + len <= |d|
  {
    d[off..off + len]
  }

  lemma ThreeParts(a: seq<Byte>, b: seq<Byte>, c: seq<Byte>)
    requires Even(a) && Even(b)
    ensures WordSum(a + b + c) == WordSum(a) + WordSum(b) + WordSum(c)
  {
    SumJoins(a + b, c);
    SumJoins(a, b);
  }

  lemma SliceParts(d: seq<Byte>, off: nat, len: nat)
    requires off + len <= |d|
    ensures d == d[..off] + Slice(d, off, len) + d[off + len..]
  {
  }

  lemma PatchSum(d: seq<Byte>, off: nat, b: seq<Byte>)
    requires off + |b| <= |d| && off % 2 == 0 && Even(b)
    ensures WordSum(Patch(d, off, b)) == WordSum(d) - WordSum(Slice(d, off, |b|)) + WordSum(b)
  {
    var head, was, tail := d[..off], Slice(d, off, |b|), d[off + |b|..];
    SliceParts(d, off, |b|);
    ThreeParts(head, b, tail);
    ThreeParts(head, was, tail);
  }

  lemma PatchElsewhere(d: seq<Byte>, off: nat, b: seq<Byte>, at: nat, len: nat)
    requires off + |b| <= |d| && at + len <= |d| && (at + len <= off || off + |b| <= at)
    ensures Slice(Patch(d, off, b), at, len) == Slice(d, at, len)
  {
  }

  // ----- Residues modulo 65535 -----

  function Residue(a: int): (r: int)
    ensures 0 <= r < 65535
    decreases if a < 0 then 65535 - a else a
  {
    if a < 0 then Residue(a + 65535) else if a < 65535 then a else Residue(a - 65535)
  }

  predicate Congruent(a: int, b: int) {
    Residue(a) == Residue(b)
  }

  lemma {:induction false} ResidueMany(a: int, k: nat)
    ensures Residue(a + 65535 * k) == Residue(a)
  {
    if k > 0 {
      ResidueMany(a, k - 1);
      assert Residue(a + 65535 * k) == Residue(a + 65535 * (k - 1));
    }
  }

  lemma {:induction false} ResiduePlus(a: int, c: int)
    ensures Residue(a + c) == Residue(Residue(a) + c)
    decreases if a < 0 then 65535 - a else a
  {
    if a < 0 {
      ResiduePlus(a + 65535, c);
      ResidueMany(a + c, 1);
    } else if a >= 65535 {
      ResiduePlus(a - 65535, c);
      ResidueMany(a - 65535 + c, 1);
    }
  }

  /** Congruent sums stay congruent when both move by the same amount. */
  lemma CongruentPlus(a: int, b: int, c: int)
    requires Congruent(a, b)
    ensures Congruent(a + c, b + c)
  {
    ResiduePlus(a, c);
    ResiduePlus(b, c);
  }

  lemma {:induction false} CanonCongruent(a: nat)
    ensures Congruent(Canon(a), a)
  {
    if a >= 65536 { CanonCongruent(a - 65535); }
  }

  lemma CanonUnique(a: nat, b: nat)
    requires Congruent(a, b) && (a == 0 <==> b == 0)
    ensures Canon(a) == Canon(b)
  {
    CanonCongruent(a);
    CanonCongruent(b);
    assert Residue(65535) == 0;
    assert Canon(a) < 65535 ==> Residue(Canon(a)) == Canon(a);
    assert Canon(b) < 65535 ==> Residue(Canon(b)) == Canon(b);
  }

  // ----- Incremental update -----

  /** The sum of the complemented words of an even number of bytes. */
  function NotSum(d: seq<Byte>): nat
    requires Even(d)
  {
    if d == [] then 0 else Complement(Pair(d[0], d[1])) + NotSum(d[2..])
  }

  lemma {:induction false} NotSumIs(d: seq<Byte>)
    requires Even(d)
    ensures NotSum(d) == 65535 * (|d| / 2) - WordSum(d)
  {
    if d != [] { NotSumIs(d[2..]); }
  }

  lemma {:induction false} NotSumZero(d: seq<Byte>)
    requires Even(d)
    ensures NotSum(d) == 0 <==> forall i :: 0 <= i < |d| ==> d[i] == 255
  {
    if d != [] {
      NotSumZero(d[2..]);
      assert forall i :: 2 <= i < |d| ==> d[i] == d[2..][i - 2];
    }
  }

  lemma {:induction false} WordSumZero(d: seq<Byte>)
    ensures WordSum(d) == 0 <==> forall i :: 0 <= i < |d| ==> d[i] == 0
  {
    if |d| >= 2 {
      WordSumZero(d[2..]);
      assert forall i :: 2 <= i < |d| ==> d[i] == d[2..][i - 2];
    }
  }

  /** Adding the complement takes away. */
  lemma NotSumSubtracts(d: seq<Byte>, a: int)
    requires Even(d)
    ensures Congruent(a + NotSum(d), a - WordSum(d))
  {
    NotSumIs(d);
    ResidueMany(a - WordSum(d), |d| / 2);
  }

  /** The sum an update folds. */
  function Folded(hc: Word, before: seq<Byte>, after: seq<Byte>): nat
    requires Even(before) && Even(after)
  {
    Complement(hc) + NotSum(before) + WordSum(after)
  }

  /** HC' = ~(~HC + ~m + m'), over every 16-bit word of the replaced bytes. */
  function Replace(hc: Word, before: seq<Byte>, after: seq<Byte>): Word
    requires Even(before) && Even(after)
  {
    Complement(Canon(Folded(hc, before, after)))
  }

  lemma FoldedTracks(h: int, sum: int, n: int, w: int, a: int)
    requires Congruent(h, sum) && Congruent(h + n, h - w)
    ensures Congruent(h + n + a, sum - w + a)
  {
    CongruentPlus(h + n, h - w, a);
    CongruentPlus(h, sum, a - w);
  }

  /** One update moves the represented sum by exactly the replaced bytes. */
  lemma ReplaceTracks(hc: Word, sum: int, before: seq<Byte>, after: seq<Byte>)
    requires Even(before) && Even(after) && Congruent(Complement(hc), sum)
    ensures Congruent(Complement(Replace(hc, before, after)), sum - WordSum(before) + WordSum(after))
  {
    NotSumSubtracts(before, Complement(hc));
    FoldedTracks(Complement(hc), sum, NotSum(before), WordSum(before), WordSum(after));
    CanonCongruent(Folded(hc, before, after));
  }

  /** The update yields 0xffff only in the all-ones to all-zeros case. */
  predicate Blank(hc: Word, before: seq<Byte>, after: seq<Byte>) {
    && hc == 65535
    && (forall i :: 0 <= i < |before| ==> before[i] == 255)
    && (forall i :: 0 <= i < |after| ==> after[i] == 0)
  }

  lemma ReplaceBlank(hc: Word, before: seq<Byte>, after: seq<Byte>)
    requires Even(before) && Even(after)
    ensures Replace(hc, before, after) == 65535 <==> Blank(hc, before, after)
  {
    NotSumZero(before);
    WordSumZero(after);
  }

  /** A checksum that represents a positive sum is the recomputed one, but for the two forms of zero. */
  lemma Settled(w: Word, sum: nat)
    requires sum > 0 && Congruent(Complement(w), sum)
    ensures w != 65535 ==> w == Complement(Canon(sum))
    ensures w == 65535 ==> Complement(Canon(sum)) == 0
  {
    CanonCongruent(sum);
  }

  lemma CanonRepresents(sum: nat)
    ensures Congruent(Complement(Complement(Canon(sum))), sum)
  {
    CanonCongruent(sum);
  }

  /** An update that is not blank lands on the recomputed checksum of any positive sum it represents. */
  lemma ReplaceExact(hc: Word, sum: nat, before: seq<Byte>, after: seq<Byte>)
    requires Even(before) && Even(after) && Congruent(Complement(hc), sum)
    requires sum - WordSum(before) + WordSum(after) > 0 && !Blank(hc, before, after)
    ensures Replace(hc, before, after) == Complement(Canon(sum - WordSum(before) + WordSum(after)))
  {
    ReplaceTracks(hc, sum, before, after);
    ReplaceBlank(hc, before, after);
    Settled(Replace(hc, before, after), sum - WordSum(before) + WordSum(after));
  }
}
