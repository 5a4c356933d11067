// rewrite_destination and rewrite_source on a packet buffer, against the full recompute.
module PacketRewrite {
  import opened Checksum
  import opened Octets

  datatype Family = V4 | V6
  datatype Protocol = Tcp | Udp
  datatype Side = Source | Destination

  /** A port as its two bytes in the segment. */
  type PortBytes = s: seq<Byte> | |s| == 2 witness [0, 0]

  /** An IP header, options included, and the transport segment behind it. */
  datatype Frame = Frame(family: Family, protocol: Protocol, header: seq<Byte>, segment: seq<Byte>)

  function AddressLen(f: Family): nat { if f == V4 then 4 else 16 }

  function AddressAt(f: Family, side: Side): nat {
    match f
    case V4 => if side == Source then 12 else 16
    case V6 => if side == Source then 8 else 24
  }

  function PortAt(side: Side): nat { if side == Source then 0 else 2 }

  function Number(p: Protocol): nat { if p == Tcp then 6 else 17 }

  function ChecksumAt(p: Protocol): nat { if p == Tcp then 16 else 6 }

  const HEADER_CHECKSUM := 10

  /** The length and header-length checks of parse_packet. */
  predicate Parsed(f: Frame) {
    && (f.family == V4 ==> |f.header| >= 20 && |f.header| == 4 * (f.header[0] % 16))
    && (f.family == V6 ==> |f.header| == 40)
    && |f.segment| >= (if f.protocol == Tcp then 20 else 8)
  }

  function Address(f: Frame, side: Side): seq<Byte>
    requires Parsed(f)
  {
    Slice(f.header, AddressAt(f.family, side), AddressLen(f.family))
  }

  function Port(f: Frame, side: Side): PortBytes
    requires Parsed(f)
  {
    Slice(f.segment, PortAt(side), 2)
  }

  function At16(d: seq<Byte>, off: nat): Word
    requires off + 2 <= |d|
  {
    Pair(d[off], d[off + 1])
  }

  lemma StoredWord(d: seq<Byte>, off: nat, w: Word)
    requires off + 2 <= |d|
    ensures At16(Patch(d, off, Bytes(w)), off) == w
  {
    var d' := Patch(d, off, Bytes(w));
    assert d'[off] == Bytes(w)[0] && d'[off + 1] == Bytes(w)[1];
  }

  lemma PatchedTwice(d: seq<Byte>, off: nat, first: seq<Byte>, second: seq<Byte>)
    requires off + |first| <= |d| && |first| == |second|
    ensures Patch(Patch(d, off, first), off, second) == Patch(d, off, second)
  {
  }

  function LengthSum(f: Family, n: nat): nat {
    if f == V4 then n else n / 65536 + n % 65536
  }

  /** Pseudo-header and segment: sections 3.1 of RFC 9293 and 8.1 of RFC 8200. */
  function TransportSum(f: Frame): nat
    requires Parsed(f)
  {
    WordSum(Address(f, Source)) + WordSum(Address(f, Destination)) + LengthSum(f.family, |f.segment|)
    + Number(f.protocol) + WordSum(f.segment)
  }

  function Blanked(f: Frame): Frame
    requires Parsed(f)
  {
    f.(segment := Patch(f.segment, ChecksumAt(f.protocol), [0, 0]))
  }

  /** The checksum a sender computes with its own field zeroed. */
  function FullTransport(f: Frame): Word
    requires Parsed(f)
  {
    Complement(Canon(TransportSum(Blanked(f))))
  }

  function FullHeader(f: Frame): Word
    requires Parsed(f)
  {
    Complement(Canon(WordSum(Patch(f.header, HEADER_CHECKSUM, [0, 0]))))
  }

  /** UDP sends 0xffff for a computed zero. */
  function UdpWire(w: Word): Word {
    if w == 0 then 65535 else w
  }

  predicate ValidHeader(f: Frame)
    requires Parsed(f)
  {
    f.family == V4 ==> At16(f.header, HEADER_CHECKSUM) == FullHeader(f)
  }

  predicate ValidTransport(f: Frame)
    requires Parsed(f)
  {
    At16(f.segment, ChecksumAt(f.protocol))
    == if f.protocol == Tcp then FullTransport(f) else UdpWire(FullTransport(f))
  }

  // ----- The fixtures' full recompute -----

  method HeaderChecksum(header: seq<Byte>) returns (w: Word)
    requires |header| >= 20
    ensures w == Complement(Canon(WordSum(header[..20])))
  {
    var sum := ChecksumAdd(0, header[..20]);
    w := ChecksumFinish(sum);
  }

  /** ipv4_transport_checksum and ipv6_transport_checksum. */
  method TransportChecksum(f: Frame) returns (w: Word)
    requires Parsed(f)
    ensures w == Complement(Canon(TransportSum(f)))
  {
    var sum := ChecksumAdd(0, Address(f, Source));
    sum := ChecksumAdd(sum, Address(f, Destination));
    if f.family == V4 {
      sum := sum + Number(f.protocol) + |f.segment|;
    } else {
      sum := sum + |f.segment| / 65536 + |f.segment| % 65536;
      sum := sum + Number(f.protocol);
    }
    sum := ChecksumAdd(sum, f.segment);
    w := ChecksumFinish(sum);
  }

  // ----- The rewrite -----

  /** What bpf_csum_diff returns: any 32-bit value congruent to the complemented old and the new words. */
  predicate IsDiff(diff: nat, before: seq<Byte>, after: seq<Byte>) {
    && diff < 0x1_0000_0000
    && Even(before)
    && Congruent(diff, NotSum(before) + WordSum(after))
  }

  function Be32(v: nat): seq<Byte>
    requires v < 0x1_0000_0000
  {
    Bytes(v / 65536) + Bytes(v % 65536)
  }

  /** The address half of update_l4_checksum. */
  function AddressUpdate(family: Family, hc: Word, before: seq<Byte>, after: seq<Byte>, diff: nat): Word
    requires Even(before) && Even(after) && diff < 0x1_0000_0000
  {
    if family == V4 then Replace(hc, before, after) else Replace(hc, [0, 0, 0, 0], Be32(diff))
  }

  function L4Update(f: Frame, side: Side, address: seq<Byte>, port: PortBytes, diff: nat): Word
    requires Parsed(f) && |address| == AddressLen(f.family) && diff < 0x1_0000_0000
  {
    var hc := At16(f.segment, ChecksumAt(f.protocol));
    Replace(AddressUpdate(f.family, hc, Address(f, side), address, diff), Port(f, side), port)
  }

  function NewHeader(f: Frame, side: Side, address: seq<Byte>): (r: seq<Byte>)
    requires Parsed(f) && |address| == AddressLen(f.family)
    ensures |r| == |f.header|
  {
    if f.family == V4 then
      var hc := At16(f.header, HEADER_CHECKSUM);
      Patch(Patch(f.header, HEADER_CHECKSUM, Bytes(Replace(hc, Address(f, side), address))),
            AddressAt(V4, side), address)
    else Patch(f.header, AddressAt(V6, side), address)
  }

  function Rewritten(f: Frame, side: Side, address: seq<Byte>, port: PortBytes, diff: nat): (r: Frame)
    requires Parsed(f) && |address| == AddressLen(f.family) && diff < 0x1_0000_0000
    ensures Parsed(r)
  {
    Frame(f.family, f.protocol, NewHeader(f, side, address),
          Patch(Patch(f.segment, ChecksumAt(f.protocol), Bytes(L4Update(f, side, address, port, diff))),
                PortAt(side), port))
  }

  /** The packet buffer the program rewrites in place. */
  class Skb {
    const family: Family
    const protocol: Protocol
    var header: seq<Byte>
    var segment: seq<Byte>

    constructor (f: Frame)
      ensures Contents() == f
    {
      family, protocol, header, segment := f.family, f.protocol, f.header, f.segment;
    }

    function Contents(): Frame
      reads this
    {
      Frame(family, protocol, header, segment)
    }

    /** bpf_l3_csum_replace. */
    method L3Replace(before: seq<Byte>, after: seq<Byte>)
      requires |header| >= HEADER_CHECKSUM + 2 && Even(before) && Even(after)
      modifies this`header
      ensures header == Patch(old(header), HEADER_CHECKSUM,
                              Bytes(Replace(At16(old(header), HEADER_CHECKSUM), before, after)))
    {
      var hc := At16(header, HEADER_CHECKSUM);
      header := Patch(header, HEADER_CHECKSUM, Bytes(Replace(hc, before, after)));
    }

    /** bpf_l4_csum_replace. */
    method L4Replace(before: seq<Byte>, after: seq<Byte>)
      requires |segment| >= ChecksumAt(protocol) + 2 && Even(before) && Even(after)
      modifies this`segment
      ensures segment == Patch(old(segment), ChecksumAt(protocol),
                               Bytes(Replace(At16(old(segment), ChecksumAt(protocol)), before, after)))
    {
      var hc := At16(segment, ChecksumAt(protocol));
      segment := Patch(segment, ChecksumAt(protocol), Bytes(Replace(hc, before, after)));
    }

    /** update_l4_checksum. */
    method UpdateL4(before: seq<Byte>, after: seq<Byte>, beforePort: seq<Byte>, afterPort: PortBytes, diff: nat)
      requires |segment| >= ChecksumAt(protocol) + 2 && diff < 0x1_0000_0000
      requires |before| == |after| == AddressLen(family) && |beforePort| == 2
      modifies this`segment
      ensures segment == Patch(old(segment), ChecksumAt(protocol),
        Bytes(Replace(AddressUpdate(family, At16(old(segment), ChecksumAt(protocol)), before, after, diff),
                      beforePort, afterPort)))
    {
      ghost var d, c := segment, ChecksumAt(protocol);
      ghost var first := AddressUpdate(family, At16(d, c), before, after, diff);
      if family == V4 {
        L4Replace(before, after);
      } else {
        L4Replace([0, 0, 0, 0], Be32(diff));
      }
      assert segment == Patch(d, c, Bytes(first));
      StoredWord(d, c, first);
      L4Replace(beforePort, afterPort);
      PatchedTwice(d, c, Bytes(first), Bytes(Replace(first, beforePort, afterPort)));
    }

    /** rewrite_destination and rewrite_source. */
    method Rewrite(side: Side, address: seq<Byte>, port: PortBytes, diff: nat)
      requires Parsed(Contents()) && |address| == AddressLen(family) && diff < 0x1_0000_0000
      modifies this
      ensures Contents() == Rewritten(old(Contents()), side, address, port, diff)
    {
      var before, beforePort := Address(Contents(), side), Port(Contents(), side);
      if family == V4 {
        L3Replace(before, address);
      }
      header := Patch(header, AddressAt(family, side), address);
      UpdateL4(before, address, beforePort, port, diff);
      segment := Patch(segment, PortAt(side), port);
    }
  }
}
