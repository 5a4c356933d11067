// Every rewrite leaves the checksums a full recompute would give.
module RewriteTheorems {
  import opened Checksum
  import opened Octets
  import opened PacketRewrite

  lemma FieldSum(d: seq<Byte>, off: nat)
    requires off + 2 <= |d|
    ensures WordSum(Slice(d, off, 2)) == At16(d, off)
  {
    assert Slice(d, off, 2) == [d[off], d[off + 1]];
  }

  lemma BlankedSum(d: seq<Byte>, off: nat)
    requires off + 2 <= |d| && off % 2 == 0
    ensures WordSum(Patch(d, off, [0, 0])) == WordSum(d) - At16(d, off)
  {
    PatchSum(d, off, [0, 0]);
    FieldSum(d, off);
  }

  /** Two separate fields replaced: the sum without the checksum field moves by the other field only. */
  lemma TwoFields(d: seq<Byte>, c: nat, u: Word, off: nat, b: seq<Byte>)
    requires c + 2 <= |d| && off + |b| <= |d| && c % 2 == 0 && off % 2 == 0 && Even(b)
    requires off + |b| <= c || c + 2 <= off
    ensures var d' := Patch(Patch(d, c, Bytes(u)), off, b);
            && At16(d', c) == u && Slice(d', off, |b|) == b
            && WordSum(Patch(d', c, [0, 0])) == WordSum(Patch(d, c, [0, 0])) - WordSum(Slice(d, off, |b|)) + WordSum(b)
  {
    var m := Patch(d, c, Bytes(u));
    var d' := Patch(m, off, b);
    PatchSum(d, c, Bytes(u));
    FieldSum(d, c);
    PatchSum(m, off, b);
    PatchElsewhere(d, c, Bytes(u), off, |b|);
    PatchElsewhere(m, off, b, c, 2);
    StoredWord(d, c, u);
    FieldSum(m, c);
    FieldSum(d', c);
    BlankedSum(d, c);
    BlankedSum(d', c);
  }

  // ----- The IPv4 header -----

  lemma HeaderPositive(header: seq<Byte>)
    requires |header| >= 20 && header[0] != 0
    ensures WordSum(Patch(header, HEADER_CHECKSUM, [0, 0])) > 0
  {
    var d := Patch(header, HEADER_CHECKSUM, [0, 0]);
    assert d[0] == header[0];
  }

  /** A field patched together with its updated checksum, on any summed bytes that cannot vanish. */
  lemma UpdateKeeps(d: seq<Byte>, d': seq<Byte>, c: nat, off: nat, b: seq<Byte>, u: Word)
    requires c + 2 <= |d| && off + |b| <= |d| && c % 2 == 0 && off % 2 == 0 && Even(b)
    requires off + |b| <= c || c + 2 <= off
    requires u == Replace(At16(d, c), Slice(d, off, |b|), b) && d' == Patch(Patch(d, c, Bytes(u)), off, b)
    requires WordSum(Patch(d, c, [0, 0])) > 0 && At16(d, c) == Complement(Canon(WordSum(Patch(d, c, [0, 0]))))
    requires WordSum(Patch(d', c, [0, 0])) > 0
    ensures At16(d', c) == Complement(Canon(WordSum(Patch(d', c, [0, 0]))))
  {
    var sum, before := WordSum(Patch(d, c, [0, 0])), Slice(d, off, |b|);
    TwoFields(d, c, u, off, b);
    StoredExact(At16(d, c), sum, before, b);
  }

  lemma StoredExact(hc: Word, sum: nat, before: seq<Byte>, after: seq<Byte>)
    requires Even(before) && Even(after) && sum > 0 && hc == Complement(Canon(sum))
    requires sum - WordSum(before) + WordSum(after) > 0
    ensures Replace(hc, before, after) == Complement(Canon(sum - WordSum(before) + WordSum(after)))
  {
    CanonRepresents(sum);
    ReplaceExact(hc, sum, before, after);
  }

  /** The sum with the checksum field taken as zero, and the header that carries it. */
  function BlankSum(header: seq<Byte>): nat
    requires |header| >= 20
  {
    WordSum(Patch(header, HEADER_CHECKSUM, [0, 0]))
  }

  predicate Carries(header: seq<Byte>)
    requires |header| >= 20
  {
    At16(header, HEADER_CHECKSUM) == Complement(Canon(BlankSum(header)))
  }

  lemma HeaderUpdate(d: seq<Byte>, d': seq<Byte>, off: nat, b: seq<Byte>, u: Word)
    requires 20 <= |d| == |d'| && (off == 12 || off == 16) && |b| == 4
    requires u == Replace(At16(d, HEADER_CHECKSUM), Slice(d, off, |b|), b)
    requires d' == Patch(Patch(d, HEADER_CHECKSUM, Bytes(u)), off, b)
    requires BlankSum(d) > 0 && BlankSum(d') > 0 && Carries(d)
    ensures Carries(d')
  {
    UpdateKeeps(d, d', HEADER_CHECKSUM, off, b, u);
  }

  lemma NewHeaderStarts(f: Frame, side: Side, address: seq<Byte>)
    requires Parsed(f) && f.family == V4 && |address| == 4
    ensures BlankSum(f.header) > 0 && BlankSum(NewHeader(f, side, address)) > 0
  {
    assert NewHeader(f, side, address)[0] == f.header[0];
    HeaderPositive(f.header);
    HeaderPositive(NewHeader(f, side, address));
  }

  lemma NewHeaderKeeps(f: Frame, side: Side, address: seq<Byte>)
    requires Parsed(f) && f.family == V4 && |address| == 4 && Carries(f.header)
    ensures Carries(NewHeader(f, side, address))
  {
    NewHeaderStarts(f, side, address);
    HeaderUpdate(f.header, NewHeader(f, side, address), AddressAt(V4, side), address,
                 Replace(At16(f.header, HEADER_CHECKSUM), Address(f, side), address));
  }

  lemma RewriteKeepsHeader(f: Frame, side: Side, address: seq<Byte>, port: PortBytes, diff: nat)
    requires Parsed(f) && ValidHeader(f) && |address| == AddressLen(f.family) && diff < 0x1_0000_0000
    ensures ValidHeader(Rewritten(f, side, address, port, diff))
  {
    if f.family == V4 { NewHeaderKeeps(f, side, address); }
  }

  // ----- The transport checksum -----

  /** The sum before, after the address and after the port of a rewrite. */
  function SumBefore(f: Frame): nat
    requires Parsed(f)
  {
    TransportSum(Blanked(f))
  }

  function SumAddressed(f: Frame, side: Side, address: seq<Byte>): int
    requires Parsed(f)
  {
    SumBefore(f) - WordSum(Address(f, side)) + WordSum(address)
  }

  function SumAfter(f: Frame, side: Side, address: seq<Byte>, port: PortBytes): int
    requires Parsed(f)
  {
    SumAddressed(f, side, address) - WordSum(Port(f, side)) + WordSum(port)
  }

  function Other(side: Side): Side {
    if side == Source then Destination else Source
  }

  lemma HeaderAddresses(f: Frame, side: Side, address: seq<Byte>)
    requires Parsed(f) && |address| == AddressLen(f.family)
    ensures var h, at := NewHeader(f, side, address), AddressAt(f.family, Other(side));
            && Slice(h, AddressAt(f.family, side), |address|) == address
            && Slice(h, at, |address|) == Slice(f.header, at, |address|)
  {
    var at := AddressAt(f.family, Other(side));
    if f.family == V4 {
      var u := Bytes(Replace(At16(f.header, HEADER_CHECKSUM), Address(f, side), address));
      PatchElsewhere(f.header, HEADER_CHECKSUM, u, at, 4);
      PatchElsewhere(Patch(f.header, HEADER_CHECKSUM, u), AddressAt(V4, side), address, at, 4);
    } else {
      PatchElsewhere(f.header, AddressAt(V6, side), address, at, 16);
    }
  }

  lemma AddressSums(f: Frame, f': Frame, side: Side, address: seq<Byte>)
    requires Parsed(f) && Parsed(f') && |address| == AddressLen(f.family) && f'.family == f.family
    requires f'.header == NewHeader(f, side, address)
    ensures WordSum(Address(f', Source)) + WordSum(Address(f', Destination))
         == WordSum(Address(f, Source)) + WordSum(Address(f, Destination))
            - WordSum(Address(f, side)) + WordSum(address)
  {
    HeaderAddresses(f, side, address);
    assert Address(f', Other(side)) == Address(f, Other(side));
  }

  lemma SegmentSums(f: Frame, f': Frame, side: Side, port: PortBytes, u: Word)
    requires Parsed(f) && Parsed(f') && f'.family == f.family && f'.protocol == f.protocol
    requires f'.segment == Patch(Patch(f.segment, ChecksumAt(f.protocol), Bytes(u)), PortAt(side), port)
    ensures WordSum(Blanked(f').segment) == WordSum(Blanked(f).segment) - WordSum(Port(f, side)) + WordSum(port)
    ensures At16(f'.segment, ChecksumAt(f.protocol)) == u
  {
    TwoFields(f.segment, ChecksumAt(f.protocol), u, PortAt(side), port);
  }

  lemma SumParts(f: Frame)
    requires Parsed(f)
    ensures SumBefore(f) == WordSum(Address(f, Source)) + WordSum(Address(f, Destination))
                          + LengthSum(f.family, |f.segment|) + Number(f.protocol) + WordSum(Blanked(f).segment)
  {
    assert Address(Blanked(f), Source) == Address(f, Source);
    assert Address(Blanked(f), Destination) == Address(f, Destination);
  }

  /** The rewritten packet's own sum is the old one moved by address and port. */
  lemma RewrittenSum(f: Frame, f': Frame, side: Side, address: seq<Byte>, port: PortBytes, u: Word)
    requires Parsed(f) && Parsed(f') && |address| == AddressLen(f.family)
    requires f'.family == f.family && f'.protocol == f.protocol && f'.header == NewHeader(f, side, address)
    requires f'.segment == Patch(Patch(f.segment, ChecksumAt(f.protocol), Bytes(u)), PortAt(side), port)
    ensures SumBefore(f') == SumAfter(f, side, address, port)
    ensures At16(f'.segment, ChecksumAt(f.protocol)) == u
  {
    AddressSums(f, f', side, address);
    SegmentSums(f, f', side, port, u);
    SumParts(f);
    SumParts(f');
  }

  lemma SumsPositive(f: Frame, side: Side, address: seq<Byte>)
    requires Parsed(f)
    ensures SumBefore(f) > 0 && SumAddressed(f, side, address) > 0
  {
  }

  lemma Be32Sum(v: nat)
    requires v < 0x1_0000_0000
    ensures Congruent(WordSum(Be32(v)), v)
  {
    SumJoins(Bytes(v / 65536), Bytes(v % 65536));
    BytesSum(v / 65536);
    BytesSum(v % 65536);
    ResidueMany(v / 65536 + v % 65536, v / 65536);
  }

  /** The zero words an address difference replaces. */
  predicate Zeros(d: seq<Byte>) {
    |d| == 4 && forall i :: 0 <= i < |d| ==> d[i] == 0
  }

  lemma ZerosReplaced(hc: Word, sum: nat, zeros: seq<Byte>, words: seq<Byte>)
    requires Zeros(zeros) && Even(words) && Congruent(Complement(hc), sum)
    ensures Congruent(Complement(Replace(hc, zeros, words)), sum + WordSum(words))
    ensures Replace(hc, zeros, words) != 65535
  {
    WordSumZero(zeros);
    assert zeros[0] != 255;
    ReplaceBlank(hc, zeros, words);
    ReplaceTracks(hc, sum, zeros, words);
  }

  /** Residues chained through an address difference. */
  lemma DiffChain(r: int, sum: int, words: int, diff: int, n: int, w: int, a: int)
    requires Congruent(r, sum + words) && Congruent(words, diff) && Congruent(diff, n + a)
    requires Congruent(sum + a + n, sum + a - w)
    ensures Congruent(r, sum - w + a)
  {
    CongruentPlus(words, diff, sum);
    CongruentPlus(diff, n + a, sum);
  }

  lemma DiffUpdate(hc: Word, sum: nat, before: seq<Byte>, after: seq<Byte>, diff: nat,
                   zeros: seq<Byte>, words: seq<Byte>)
    requires IsDiff(diff, before, after) && Congruent(Complement(hc), sum)
    requires Zeros(zeros) && Even(words) && Congruent(WordSum(words), diff)
    ensures Congruent(Complement(Replace(hc, zeros, words)), sum - WordSum(before) + WordSum(after))
    ensures Replace(hc, zeros, words) != 65535
  {
    ZerosReplaced(hc, sum, zeros, words);
    NotSumSubtracts(before, sum + WordSum(after));
    DiffChain(Complement(Replace(hc, zeros, words)), sum, WordSum(words), diff,
              NotSum(before), WordSum(before), WordSum(after));
  }

  /** The address half: tracks the sum, exactly unless the update is blank. */
  lemma AddressTracks(family: Family, hc: Word, sum: nat, before: seq<Byte>, after: seq<Byte>, diff: nat)
    requires Even(before) && Even(after) && Congruent(Complement(hc), sum)
    requires diff < 0x1_0000_0000 && (family == V6 ==> IsDiff(diff, before, after))
    ensures Congruent(Complement(AddressUpdate(family, hc, before, after, diff)),
                      sum - WordSum(before) + WordSum(after))
    ensures AddressUpdate(family, hc, before, after, diff) == 65535 <==> family == V4 && Blank(hc, before, after)
  {
    if family == V4 {
      ReplaceTracks(hc, sum, before, after);
      ReplaceBlank(hc, before, after);
    } else {
      Be32Sum(diff);
      DiffUpdate(hc, sum, before, after, diff, [0, 0, 0, 0], Be32(diff));
    }
  }

  /** Both halves of update_l4_checksum found nothing but ones to replace by zeros. */
  predicate AllBlank(f: Frame, side: Side, address: seq<Byte>, port: PortBytes)
    requires Parsed(f)
  {
    && f.family == V4
    && Blank(At16(f.segment, ChecksumAt(f.protocol)), Address(f, side), address)
    && Blank(65535, Port(f, side), port)
  }

  lemma PortTracks(first: Word, sum: int, here: seq<Byte>, there: seq<Byte>)
    requires Even(here) && Even(there) && Congruent(Complement(first), sum)
    ensures Congruent(Complement(Replace(first, here, there)), sum - WordSum(here) + WordSum(there))
    ensures Replace(first, here, there) == 65535 <==> first == 65535 && Blank(65535, here, there)
  {
    ReplaceTracks(first, sum, here, there);
    ReplaceBlank(first, here, there);
  }

  /** The chained update, for any packet whose stored checksum represents its sum. */
  lemma ChainedUpdate(f: Frame, side: Side, address: seq<Byte>, port: PortBytes, diff: nat)
    requires Parsed(f) && |address| == AddressLen(f.family) && diff < 0x1_0000_0000
    requires f.family == V6 ==> IsDiff(diff, Address(f, side), address)
    requires Congruent(Complement(At16(f.segment, ChecksumAt(f.protocol))), SumBefore(f))
    ensures Congruent(Complement(L4Update(f, side, address, port, diff)), SumAfter(f, side, address, port))
    ensures L4Update(f, side, address, port, diff) == 65535 <==> AllBlank(f, side, address, port)
  {
    var hc, before := At16(f.segment, ChecksumAt(f.protocol)), Address(f, side);
    AddressTracks(f.family, hc, SumBefore(f), before, address, diff);
    PortTracks(AddressUpdate(f.family, hc, before, address, diff), SumAddressed(f, side, address), Port(f, side), port);
  }

  /** TCP: the chained incremental update is the full recompute, for all addresses and ports of either family. */
  lemma RewriteKeepsTcp(f: Frame, side: Side, address: seq<Byte>, port: PortBytes, diff: nat)
    requires Parsed(f) && f.protocol == Tcp && ValidTransport(f)
    requires |address| == AddressLen(f.family) && diff < 0x1_0000_0000
    requires f.family == V6 ==> IsDiff(diff, Address(f, side), address)
    ensures ValidTransport(Rewritten(f, side, address, port, diff))
  {
    var f' := Rewritten(f, side, address, port, diff);
    CanonRepresents(SumBefore(f));
    RewrittenSum(f, f', side, address, port, L4Update(f, side, address, port, diff));
    ChainedUpdate(f, side, address, port, diff);
    SumsPositive(f, side, address);
    SumsPositive(f', side, address);
    Settled(L4Update(f, side, address, port, diff), SumBefore(f'));
  }

  /** UDP: the same value up to the two zeros, with exactly when the wire form of zero is missed. */
  lemma RewriteUdp(f: Frame, side: Side, address: seq<Byte>, port: PortBytes, diff: nat)
    requires Parsed(f) && f.protocol == Udp && ValidTransport(f)
    requires |address| == AddressLen(f.family) && diff < 0x1_0000_0000
    requires f.family == V6 ==> IsDiff(diff, Address(f, side), address)
    ensures var f' := Rewritten(f, side, address, port, diff);
            var stored := At16(f'.segment, ChecksumAt(Udp));
            && (stored == FullTransport(f') || (stored == 65535 && FullTransport(f') == 0))
            && (ValidTransport(f') <==> FullTransport(f') != 0 || AllBlank(f, side, address, port))
  {
    var f' := Rewritten(f, side, address, port, diff);
    WireRepresents(SumBefore(f));
    RewrittenSum(f, f', side, address, port, L4Update(f, side, address, port, diff));
    ChainedUpdate(f, side, address, port, diff);
    SumsPositive(f', side, address);
    Settled(L4Update(f, side, address, port, diff), SumBefore(f'));
  }

  lemma WireRepresents(sum: nat)
    ensures Congruent(Complement(UdpWire(Complement(Canon(sum)))), sum)
  {
    CanonRepresents(sum);
  }

  lemma FullAfter(f: Frame, side: Side, address: seq<Byte>, port: PortBytes, diff: nat)
    requires Parsed(f) && |address| == AddressLen(f.family) && diff < 0x1_0000_0000
    ensures SumAfter(f, side, address, port) > 0
    ensures FullTransport(Rewritten(f, side, address, port, diff))
         == Complement(Canon(SumAfter(f, side, address, port)))
  {
    var f' := Rewritten(f, side, address, port, diff);
    RewrittenSum(f, f', side, address, port, L4Update(f, side, address, port, diff));
    SumsPositive(f', side, address);
  }

  lemma NotBlankPort(f: Frame, side: Side, address: seq<Byte>, port: PortBytes)
    requires Parsed(f) && WordSum(port) != 0
    ensures !AllBlank(f, side, address, port)
  {
    WordSumZero(port);
  }

  lemma UdpMisses(f: Frame, side: Side, address: seq<Byte>, port: PortBytes, diff: nat)
    requires Parsed(f) && f.protocol == Udp && ValidTransport(f) && WordSum(port) != 0
    requires |address| == AddressLen(f.family) && diff < 0x1_0000_0000
    requires f.family == V6 ==> IsDiff(diff, Address(f, side), address)
    requires FullTransport(Rewritten(f, side, address, port, diff)) == 0
    ensures !ValidTransport(Rewritten(f, side, address, port, diff))
  {
    NotBlankPort(f, side, address, port);
    RewriteUdp(f, side, address, port, diff);
  }

  lemma FillingPort(sum: nat) returns (port: PortBytes)
    requires sum > 0
    ensures WordSum(port) != 0 && Complement(Canon(sum + WordSum(port))) == 0
  {
    var w := UdpWire(Complement(Canon(sum)));
    WireRepresents(sum);
    CongruentPlus(Complement(w), sum, w);
    CanonUnique(sum + w, 65535);
    BytesSum(w);
    port := Bytes(w);
  }

  lemma PortMovesSum(f: Frame, side: Side, address: seq<Byte>, port: PortBytes)
    requires Parsed(f)
    ensures SumAfter(f, side, address, port) == SumAfter(f, side, address, [0, 0]) + WordSum(port)
  {
    var none: PortBytes := [0, 0];
    WordSumZero(none);
  }

  lemma FillsFull(f: Frame, side: Side, address: seq<Byte>, diff: nat) returns (port: PortBytes)
    requires Parsed(f) && |address| == AddressLen(f.family) && diff < 0x1_0000_0000
    ensures WordSum(port) != 0 && FullTransport(Rewritten(f, side, address, port, diff)) == 0
  {
    FullAfter(f, side, address, [0, 0], diff);
    port := FillingPort(SumAfter(f, side, address, [0, 0]));
    PortMovesSum(f, side, address, port);
    FullAfter(f, side, address, port, diff);
  }

  /** For every UDP packet and new address some non-zero port makes the program store the forbidden zero. */
  lemma UdpZeroReachable(f: Frame, side: Side, address: seq<Byte>, diff: nat) returns (port: PortBytes)
    requires Parsed(f) && f.protocol == Udp && ValidTransport(f)
    requires |address| == AddressLen(f.family) && diff < 0x1_0000_0000
    requires f.family == V6 ==> IsDiff(diff, Address(f, side), address)
    ensures port != [0, 0] && !ValidTransport(Rewritten(f, side, address, port, diff))
  {
    port := FillsFull(f, side, address, diff);
    UdpMisses(f, side, address, port, diff);
    NonZeroPort(port);
  }

  lemma NonZeroPort(port: PortBytes)
    requires WordSum(port) != 0
    ensures port != [0, 0]
  {
    WordSumZero(port);
  }

  // ----- Rewriting back -----

  /** Two byte strings that agree outside one word and carry the same word there are equal. */
  lemma SameButOne(d: seq<Byte>, d': seq<Byte>, c: nat)
    requires |d| == |d'| && c + 2 <= |d| && At16(d, c) == At16(d', c)
    requires forall i :: 0 <= i < |d| && i != c && i != c + 1 ==> d[i] == d'[i]
    ensures d == d'
  {
    assert d[c] == d'[c] && d[c + 1] == d'[c + 1];
  }

  /** A word and a field patched, then the word patched again and the field patched back. */
  lemma FieldBack(d: seq<Byte>, c: nat, u: Word, v: Word, at: nat, b: seq<Byte>, i: nat)
    requires c + 2 <= |d| && at + |b| <= |d| && (at + |b| <= c || c + 2 <= at) && i < |d| && i != c && i != c + 1
    ensures Patch(Patch(Patch(Patch(d, c, Bytes(u)), at, b), c, Bytes(v)), at, Slice(d, at, |b|))[i] == d[i]
  {
    var d1 := Patch(d, c, Bytes(u));
    var d2 := Patch(d1, at, b);
    var d3 := Patch(d2, c, Bytes(v));
    PatchByte(d, c, Bytes(u), i);
    PatchByte(d1, at, b, i);
    PatchByte(d2, c, Bytes(v), i);
    PatchByte(d3, at, Slice(d, at, |b|), i);
  }

  /** Outside the checksum word equal, both valid: equal. */
  lemma TransportDecides(f: Frame, f2: Frame)
    requires Parsed(f) && Parsed(f2) && f.protocol == Tcp && f2.family == f.family && f2.protocol == Tcp
    requires ValidTransport(f) && ValidTransport(f2) && f2.header == f.header && |f2.segment| == |f.segment|
    requires forall i :: 0 <= i < |f.segment| && i != 16 && i != 17 ==> f2.segment[i] == f.segment[i]
    ensures f2 == f
  {
    assert Blanked(f2).segment == Blanked(f).segment;
    SameButOne(f2.segment, f.segment, 16);
  }

  lemma V4HeaderRestored(f: Frame, f1: Frame, f2: Frame, side: Side, address: seq<Byte>, u: Word, v: Word)
    requires Parsed(f) && Parsed(f2) && f.family == V4 && f2.family == V4 && |address| == 4
    requires ValidHeader(f) && ValidHeader(f2)
    requires f1.header == Patch(Patch(f.header, HEADER_CHECKSUM, Bytes(u)), AddressAt(V4, side), address)
    requires f2.header == Patch(Patch(f1.header, HEADER_CHECKSUM, Bytes(v)), AddressAt(V4, side), Address(f, side))
    ensures f2.header == f.header
  {
    forall i | 0 <= i < |f.header| && i != HEADER_CHECKSUM && i != HEADER_CHECKSUM + 1
      ensures f2.header[i] == f.header[i]
    {
      FieldBack(f.header, HEADER_CHECKSUM, u, v, AddressAt(V4, side), address, i);
    }
    assert Patch(f2.header, HEADER_CHECKSUM, [0, 0]) == Patch(f.header, HEADER_CHECKSUM, [0, 0]);
    SameButOne(f2.header, f.header, HEADER_CHECKSUM);
  }

  lemma HeaderRestored(f: Frame, f1: Frame, f2: Frame, side: Side, address: seq<Byte>)
    requires Parsed(f) && Parsed(f1) && Parsed(f2) && |address| == AddressLen(f.family)
    requires f1.family == f.family && f2.family == f.family && ValidHeader(f) && ValidHeader(f2)
    requires f1.header == NewHeader(f, side, address) && f2.header == NewHeader(f1, side, Address(f, side))
    ensures f2.header == f.header
  {
    if f.family == V4 {
      V4HeaderRestored(f, f1, f2, side, address, Replace(At16(f.header, HEADER_CHECKSUM), Address(f, side), address),
                       Replace(At16(f1.header, HEADER_CHECKSUM), Address(f1, side), Address(f, side)));
    } else {
      var at := AddressAt(V6, side);
      assert f2.header == Patch(Patch(f.header, at, address), at, Slice(f.header, at, |address|));
    }
  }

  lemma Undone(f: Frame, f1: Frame, f2: Frame, side: Side, address: seq<Byte>, port: PortBytes, u: Word, v: Word)
    requires Parsed(f) && Parsed(f1) && Parsed(f2) && |address| == AddressLen(f.family)
    requires f.protocol == Tcp && f2.protocol == Tcp && f1.family == f.family && f2.family == f.family
    requires ValidHeader(f) && ValidHeader(f2) && ValidTransport(f) && ValidTransport(f2)
    requires f1.header == NewHeader(f, side, address) && f2.header == NewHeader(f1, side, Address(f, side))
    requires f1.segment == Patch(Patch(f.segment, 16, Bytes(u)), PortAt(side), port)
    requires f2.segment == Patch(Patch(f1.segment, 16, Bytes(v)), PortAt(side), Port(f, side))
    ensures f2 == f
  {
    HeaderRestored(f, f1, f2, side, address);
    forall i | 0 <= i < |f.segment| && i != 16 && i != 17 ensures f2.segment[i] == f.segment[i] {
      FieldBack(f.segment, 16, u, v, PortAt(side), port, i);
    }
    TransportDecides(f, f2);
  }

  lemma RewrittenAddress(f: Frame, side: Side, address: seq<Byte>, port: PortBytes, diff: nat)
    requires Parsed(f) && |address| == AddressLen(f.family) && diff < 0x1_0000_0000
    ensures Address(Rewritten(f, side, address, port, diff), side) == address
  {
    HeaderAddresses(f, side, address);
  }

  lemma RewriteSound(f: Frame, f': Frame, side: Side, address: seq<Byte>, port: PortBytes, diff: nat)
    requires Parsed(f) && f.protocol == Tcp && ValidHeader(f) && ValidTransport(f) && |address| == AddressLen(f.family)
    requires diff < 0x1_0000_0000 && (f.family == V6 ==> IsDiff(diff, Address(f, side), address))
    requires f' == Rewritten(f, side, address, port, diff)
    ensures ValidHeader(f') && ValidTransport(f')
  {
    RewriteKeepsHeader(f, side, address, port, diff);
    RewriteKeepsTcp(f, side, address, port, diff);
  }

  /** A valid TCP packet rewritten and rewritten back is the same packet, byte for byte. */
  lemma RewriteUndone(f: Frame, f1: Frame, f2: Frame, side: Side, address: seq<Byte>, port: PortBytes,
                      there: nat, back: nat)
    requires Parsed(f) && f.protocol == Tcp && ValidHeader(f) && ValidTransport(f) && |address| == AddressLen(f.family)
    requires there < 0x1_0000_0000 && back < 0x1_0000_0000
    requires f.family == V6 ==> IsDiff(there, Address(f, side), address) && IsDiff(back, address, Address(f, side))
    requires f1 == Rewritten(f, side, address, port, there)
    requires f2 == Rewritten(f1, side, Address(f, side), Port(f, side), back)
    ensures f2 == f
  {
    RewrittenAddress(f, side, address, port, there);
    RewriteSound(f, f1, side, address, port, there);
    RewriteSound(f1, f2, side, Address(f, side), Port(f, side), back);
    Undone(f, f1, f2, side, address, port, L4Update(f, side, address, port, there),
           L4Update(f1, side, Address(f, side), Port(f, side), back));
  }
}
