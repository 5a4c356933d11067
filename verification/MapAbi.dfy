// The fixed-width map ABI shared by the packet programs and the control service.
// Native-order fields are written for a little-endian host.
module MapAbi {
  import opened Octets

  const VERSION := 1
  const TCP: Byte := 6
  const UDP: Byte := 17
  const KEY_LEN := 40
  const INDEX_LEN := 16
  const STATE_LEN := 256

  type Octets4 = s: seq<Byte> | |s| == 4 witness [0, 0, 0, 0]
  type Octets16 = s: seq<Byte> | |s| == 16 witness [0, 0, 0, 0, 0, 0, 0, 0, 0, 0, 0, 0, 0, 0, 0, 0]

  datatype Ip = V4(four: Octets4) | V6(sixteen: Octets16)

  datatype Tuple = Tuple(source: Ip, destination: Ip, protocol: Byte, sourcePort: U16, destinationPort: U16)

  datatype FlowIndex = FlowIndex(flowId: U64, generation: U32)

  datatype Lifecycle = Creating | Active

  datatype FlowState = FlowState(
    index: FlowIndex, original: Tuple, target: Tuple, reverse: Tuple, lastUsed: U64, protocolFlags: U32,
    tcpFlags: U32, finSeen: Byte, finAcked: Byte, lifecycle: Lifecycle, deadline: U64)

  datatype AbiError =
    | UnsupportedVersion(version: nat)
    | InvalidLength(expected: nat, actual: nat)
    | InvalidFamily(family: Byte)
    | UnsupportedProtocol(protocol: Byte)
    | FamilyMismatch
    | ZeroPort
    | UnspecifiedAddress
    | InvalidLifecycle(value: Byte)

  datatype Result<+T> = Ok(value: T) | Err(error: AbiError) {
    predicate IsFailure() { Err? }
    function PropagateFailure<U>(): Result<U> requires Err? { Err(error) }
    function Extract(): T requires Ok? { value }
  }

  // ----- Tuples -----

  const MAPPED_PREFIX: seq<Byte> := [0, 0, 0, 0, 0, 0, 0, 0, 0, 0, 255, 255]

  function AddressBytes(a: Ip): (r: seq<Byte>)
    ensures |r| == 16
  {
    match a
    case V4(four) => MAPPED_PREFIX + four
    case V6(sixteen) => sixteen
  }

  function ParseAddress(family: Byte, b: seq<Byte>): Result<Ip> {
    if |b| != 16 then Err(InvalidLength(16, |b|))
    else if family == 4 then Ok(V4(b[12..16]))
    else if family == 6 then Ok(V6(b))
    else Err(InvalidFamily(family))
  }

  function FamilyOf(t: Tuple): Byte {
    if t.source.V4? then 4 else 6
  }

  predicate SameFamily(t: Tuple) {
    t.source.V4? == t.destination.V4?
  }

  function EncodeKey(t: Tuple): (r: seq<Byte>)
    ensures |r| == KEY_LEN
  {
    Be(VERSION, 2) + [FamilyOf(t), t.protocol] + AddressBytes(t.source) + AddressBytes(t.destination)
    + Be(t.sourcePort, 2) + Be(t.destinationPort, 2)
  }

  /** Big-endian two-byte read. */
  function Be16(b: seq<Byte>): U16
    requires |b| == 2
  {
    Widths();
    BeOfBytes(b);
    FromBe(b)
  }

  function DecodeKey(b: seq<Byte>): Result<Tuple> {
    if |b| != KEY_LEN then Err(InvalidLength(KEY_LEN, |b|))
    else if Be16(b[0..2]) != VERSION then Err(UnsupportedVersion(Be16(b[0..2])))
    else
      var source :- ParseAddress(b[2], b[4..20]);
      var destination :- ParseAddress(b[2], b[20..36]);
      if source.V4? != destination.V4? then Err(FamilyMismatch)
      else Ok(Tuple(source, destination, b[3], Be16(b[36..38]), Be16(b[38..40])))
  }

  lemma KeyLayout(t: Tuple)
    ensures var k := EncodeKey(t);
            && k[0..2] == Be(VERSION, 2) && k[2] == FamilyOf(t) && k[3] == t.protocol
            && k[4..20] == AddressBytes(t.source) && k[20..36] == AddressBytes(t.destination)
            && k[36..38] == Be(t.sourcePort, 2) && k[38..40] == Be(t.destinationPort, 2)
  {
  }

  lemma Be16RoundTrip(v: U16)
    ensures Be16(Be(v, 2)) == v
  {
    Widths();
    BeRoundTrip(v, 2);
  }

  lemma AddressRoundTrip(a: Ip)
    ensures ParseAddress(if a.V4? then 4 else 6, AddressBytes(a)) == Ok(a)
  {
    if a.V4? { assert AddressBytes(a)[12..16] == a.four; }
  }

  /** Decoding undoes encoding exactly for tuples of one family. */
  lemma KeyRoundTrip(t: Tuple)
    ensures DecodeKey(EncodeKey(t)) == Ok(t) <==> SameFamily(t)
  {
    KeyLayout(t);
    Be16RoundTrip(VERSION);
    Be16RoundTrip(t.sourcePort);
    Be16RoundTrip(t.destinationPort);
    AddressRoundTrip(t.source);
    if SameFamily(t) { AddressRoundTrip(t.destination); }
  }

  lemma KeyInjective(t: Tuple, u: Tuple)
    requires SameFamily(t) && SameFamily(u) && EncodeKey(t) == EncodeKey(u)
    ensures t == u
  {
    KeyRoundTrip(t);
    KeyRoundTrip(u);
  }

  function Mapped(a: Ip): Ip { V6(AddressBytes(a)) }

  /** An IPv4 tuple and its IPv4-mapped IPv6 twin share all address bytes and still have different keys. */
  lemma MappedStaysDistinct(t: Tuple)
    requires t.source.V4? && t.destination.V4?
    ensures var u := t.(source := Mapped(t.source), destination := Mapped(t.destination));
            && EncodeKey(u)[3..] == EncodeKey(t)[3..] && EncodeKey(u)[..2] == EncodeKey(t)[..2]
            && EncodeKey(u) != EncodeKey(t)
  {
    var u := t.(source := Mapped(t.source), destination := Mapped(t.destination));
    KeyLayout(t);
    KeyLayout(u);
    SameTail(EncodeKey(t), EncodeKey(u));
  }

  lemma SameTail(a: seq<Byte>, b: seq<Byte>)
    requires |a| == |b| == KEY_LEN && a[3] == b[3] && a[4..20] == b[4..20] && a[20..36] == b[20..36]
    requires a[36..38] == b[36..38] && a[38..40] == b[38..40] && a[0..2] == b[0..2]
    ensures a[3..] == b[3..] && a[..2] == b[..2]
  {
    assert a[3..] == [a[3]] + a[4..20] + a[20..36] + a[36..38] + a[38..40];
    assert b[3..] == [b[3]] + b[4..20] + b[20..36] + b[36..38] + b[38..40];
  }

  predicate CanonicalAddress(family: Byte, b: seq<Byte>) {
    family == 4 ==> |b| == 16 && b[..12] == MAPPED_PREFIX
  }

  lemma ParsedAddress(family: Byte, b: seq<Byte>, a: Ip)
    requires ParseAddress(family, b) == Ok(a)
    ensures AddressBytes(a) == b <==> CanonicalAddress(family, b)
    ensures (family == 4 <==> a.V4?) && (family == 6 <==> a.V6?)
  {
    if family == 4 {
      assert b == b[..12] + b[12..16];
      assert AddressBytes(a)[..12] == MAPPED_PREFIX;
    }
  }

  predicate SameParts(a: seq<Byte>, b: seq<Byte>)
    requires |a| == |b| == KEY_LEN
  {
    && a[0..2] == b[0..2] && a[2] == b[2] && a[3] == b[3] && a[4..20] == b[4..20] && a[20..36] == b[20..36]
    && a[36..38] == b[36..38] && a[38..40] == b[38..40]
  }

  lemma PartsDecide(a: seq<Byte>, b: seq<Byte>)
    requires |a| == |b| == KEY_LEN
    ensures a == b <==> SameParts(a, b)
  {
    if SameParts(a, b) {
      SameTail(a, b);
      assert a == a[..2] + [a[2]] + a[3..] && b == b[..2] + [b[2]] + b[3..];
    }
  }

  lemma PortsDecide(p: U16, q: U16)
    ensures Be(p, 2) == Be(q, 2) <==> p == q
  {
    Be16RoundTrip(p);
    Be16RoundTrip(q);
  }

  /** What two tuples with the same key have in common. */
  predicate SameFields(t: Tuple, u: Tuple) {
    && FamilyOf(t) == FamilyOf(u) && t.protocol == u.protocol
    && AddressBytes(t.source) == AddressBytes(u.source) && AddressBytes(t.destination) == AddressBytes(u.destination)
    && t.sourcePort == u.sourcePort && t.destinationPort == u.destinationPort
  }

  lemma SameKey(t: Tuple, u: Tuple)
    ensures EncodeKey(t) == EncodeKey(u) <==> SameFields(t, u)
  {
    KeyLayout(t);
    KeyLayout(u);
    PartsDecide(EncodeKey(t), EncodeKey(u));
    PortsDecide(t.sourcePort, u.sourcePort);
    PortsDecide(t.destinationPort, u.destinationPort);
  }

  lemma SameAddress(a: Ip, b: Ip)
    requires AddressBytes(a) == AddressBytes(b)
    ensures a == b <==> a.V4? == b.V4?
    ensures a != b ==> AddressBytes(a)[..12] == MAPPED_PREFIX
  {
    if a.V4? && b.V4? { assert AddressBytes(a)[12..16] == a.four && AddressBytes(b)[12..16] == b.four; }
    else if a.V4? { assert AddressBytes(a)[..12] == MAPPED_PREFIX; }
    else if b.V4? { assert AddressBytes(b)[..12] == MAPPED_PREFIX; }
  }

  /** The address of the other family with the same sixteen bytes, where there is one. */
  function Twin(a: Ip): Ip
    requires AddressBytes(a)[..12] == MAPPED_PREFIX
  {
    if a.V4? then V6(AddressBytes(a)) else V4(a.sixteen[12..16])
  }

  lemma TwinBytes(a: Ip)
    requires AddressBytes(a)[..12] == MAPPED_PREFIX
    ensures AddressBytes(Twin(a)) == AddressBytes(a) && Twin(a) != a
  {
    if a.V6? { assert a.sixteen == a.sixteen[..12] + a.sixteen[12..16]; }
  }

  /**
   * Only the source's family is stored, so a tuple shares its key with another one exactly if its destination is
   * IPv4 or IPv4-mapped; the other tuple then differs in the destination's family alone.
   */
  lemma KeyCollides(t: Tuple)
    ensures (exists u :: u != t && EncodeKey(u) == EncodeKey(t)) <==> AddressBytes(t.destination)[..12] == MAPPED_PREFIX
    ensures forall u :: u != t && EncodeKey(u) == EncodeKey(t) ==> SameFamily(u) != SameFamily(t)
  {
    forall u | u != t && EncodeKey(u) == EncodeKey(t)
      ensures SameFamily(u) != SameFamily(t) && AddressBytes(t.destination)[..12] == MAPPED_PREFIX
    {
      SameKey(t, u);
      SameAddress(t.source, u.source);
      SameAddress(t.destination, u.destination);
    }
    if AddressBytes(t.destination)[..12] == MAPPED_PREFIX {
      var u := t.(destination := Twin(t.destination));
      TwinBytes(t.destination);
      SameKey(t, u);
      assert u != t && EncodeKey(u) == EncodeKey(t);
    }
  }

  lemma DecodedParts(b: seq<Byte>, t: Tuple)
    requires DecodeKey(b) == Ok(t)
    ensures SameFamily(t) && b[2] == FamilyOf(t) && b[3] == t.protocol && Be(VERSION, 2) == b[0..2]
    ensures Be(t.sourcePort, 2) == b[36..38] && Be(t.destinationPort, 2) == b[38..40]
    ensures ParseAddress(b[2], b[4..20]) == Ok(t.source) && ParseAddress(b[2], b[20..36]) == Ok(t.destination)
  {
    BeOfBytes(b[0..2]);
    BeOfBytes(b[36..38]);
    BeOfBytes(b[38..40]);
  }

  /** Exactly the well-sized keys of this version and of a known family are accepted. */
  lemma KeyAccepted(b: seq<Byte>)
    ensures DecodeKey(b).Ok? <==> |b| == KEY_LEN && b[0..2] == Be(VERSION, 2) && (b[2] == 4 || b[2] == 6)
  {
    Be16RoundTrip(VERSION);
    if |b| == KEY_LEN { BeOfBytes(b[0..2]); }
  }

  /** A decoded key re-encodes to itself unless its IPv4 prefix bytes, which are never read, are not canonical. */
  lemma DecodedKey(b: seq<Byte>, t: Tuple)
    requires DecodeKey(b) == Ok(t)
    ensures SameFamily(t)
    ensures EncodeKey(t) == b <==> CanonicalAddress(b[2], b[4..20]) && CanonicalAddress(b[2], b[20..36])
  {
    DecodedParts(b, t);
    ParsedAddress(b[2], b[4..20], t.source);
    ParsedAddress(b[2], b[20..36], t.destination);
    KeyLayout(t);
    PartsDecide(EncodeKey(t), b);
  }

  // ----- Index values and state keys -----

  function EncodeIndex(i: FlowIndex): (r: seq<Byte>)
    ensures |r| == INDEX_LEN
  {
    Be(VERSION, 2) + [0, 0] + Le(i.flowId, 8) + Le(i.generation, 4)
  }

  function Le32(b: seq<Byte>): U32
    requires |b| == 4
  {
    Widths();
    LeOfBytes(b);
    FromLe(b)
  }

  function Le64(b: seq<Byte>): U64
    requires |b| == 8
  {
    Widths();
    LeOfBytes(b);
    FromLe(b)
  }

  function DecodeIndex(b: seq<Byte>): Result<FlowIndex> {
    if |b| != INDEX_LEN then Err(InvalidLength(INDEX_LEN, |b|))
    else if Be16(b[0..2]) != VERSION then Err(UnsupportedVersion(Be16(b[0..2])))
    else Ok(FlowIndex(Le64(b[4..12]), Le32(b[12..16])))
  }

  lemma Le64RoundTrip(v: U64)
    ensures Le64(Le(v, 8)) == v
  {
    Widths();
    LeRoundTrip(v, 8);
  }

  lemma Le32RoundTrip(v: U32)
    ensures Le32(Le(v, 4)) == v
  {
    Widths();
    LeRoundTrip(v, 4);
  }

  lemma IndexLayout(i: FlowIndex)
    ensures var b := EncodeIndex(i);
            && b[0..2] == Be(VERSION, 2) && b[2..4] == [0, 0]
            && b[4..12] == Le(i.flowId, 8) && b[12..16] == Le(i.generation, 4)
  {
    var head := Be(VERSION, 2) + [0, 0];
    assert EncodeIndex(i)[..4] == head;
    assert EncodeIndex(i)[12..] == Le(i.generation, 4);
  }

  lemma IndexRoundTrip(i: FlowIndex)
    ensures DecodeIndex(EncodeIndex(i)) == Ok(i)
  {
    IndexLayout(i);
    Be16RoundTrip(VERSION);
    Le64RoundTrip(i.flowId);
    Le32RoundTrip(i.generation);
  }

  lemma IndexInjective(i: FlowIndex, j: FlowIndex)
    requires EncodeIndex(i) == EncodeIndex(j)
    ensures i == j
  {
    IndexRoundTrip(i);
    IndexRoundTrip(j);
  }

  lemma IndexPartsDecide(a: seq<Byte>, b: seq<Byte>)
    requires |a| == |b| == INDEX_LEN
    ensures a == b <==> a[0..2] == b[0..2] && a[2..4] == b[2..4] && a[4..12] == b[4..12] && a[12..16] == b[12..16]
  {
    assert a == a[0..2] + a[2..4] + a[4..12] + a[12..16];
    assert b == b[0..2] + b[2..4] + b[4..12] + b[12..16];
  }

  lemma DecodedIndexParts(b: seq<Byte>, i: FlowIndex)
    requires DecodeIndex(b) == Ok(i)
    ensures Be(VERSION, 2) == b[0..2] && Le(i.flowId, 8) == b[4..12] && Le(i.generation, 4) == b[12..16]
  {
    BeOfBytes(b[0..2]);
    LeOfBytes(b[4..12]);
    LeOfBytes(b[12..16]);
  }

  /** A decoded index re-encodes to itself exactly when its reserved bytes are zero. */
  lemma DecodedIndex(b: seq<Byte>, i: FlowIndex)
    requires DecodeIndex(b) == Ok(i)
    ensures EncodeIndex(i) == b <==> b[2..4] == [0, 0]
  {
    DecodedIndexParts(b, i);
    IndexLayout(i);
    IndexPartsDecide(EncodeIndex(i), b);
  }

  // ----- Flow states -----

  predicate Unspecified(a: Ip) {
    match a
    case V4(four) => four == [0, 0, 0, 0]
    case V6(sixteen) => sixteen == [0, 0, 0, 0, 0, 0, 0, 0, 0, 0, 0, 0, 0, 0, 0, 0]
  }

  /** Tuple::validate. */
  function ValidateTuple(t: Tuple): Result<()> {
    if !SameFamily(t) then Err(FamilyMismatch)
    else if t.protocol != TCP && t.protocol != UDP then Err(UnsupportedProtocol(t.protocol))
    else if t.sourcePort == 0 || t.destinationPort == 0 then Err(ZeroPort)
    else if Unspecified(t.source) || Unspecified(t.destination) then Err(UnspecifiedAddress)
    else Ok(())
  }

  /** FlowState::validate. */
  function Validate(s: FlowState): Result<()> {
    var _ :- ValidateTuple(s.original);
    var _ :- ValidateTuple(s.target);
    var _ :- ValidateTuple(s.reverse);
    if s.original.protocol != s.target.protocol || s.target.protocol != s.reverse.protocol
    then Err(UnsupportedProtocol(s.original.protocol))
    else if s.original.destination.V4? != s.target.destination.V4?
         || s.target.destination.V4? != s.reverse.destination.V4?
    then Err(FamilyMismatch)
    else if s.lifecycle == Creating && s.deadline != 0 then Err(InvalidLifecycle(1))
    else Ok(())
  }

  function LifecycleByte(l: Lifecycle): Byte { if l == Creating then 1 else 2 }

  function ParseLifecycle(b: Byte): Result<Lifecycle> {
    if b == 1 then Ok(Creating) else if b == 2 then Ok(Active) else Err(InvalidLifecycle(b))
  }

  function Tuples(s: FlowState): (r: seq<Byte>)
    ensures |r| == 3 * KEY_LEN
  {
    EncodeKey(s.original) + EncodeKey(s.target) + EncodeKey(s.reverse)
  }

  function Counters(s: FlowState): (r: seq<Byte>)
    ensures |r| == 40
  {
    Le(s.lastUsed, 8) + Le(s.protocolFlags, 4) + Le(s.tcpFlags, 4)
    + [s.finSeen, s.finAcked, LifecycleByte(s.lifecycle), 0]
    + Le(s.deadline, 8) + Le(s.index.flowId, 8) + Le(s.index.generation, 4)
  }

  function EncodeState(s: FlowState): (r: seq<Byte>)
    ensures |r| == STATE_LEN
  {
    Tuples(s) + Counters(s) + seq(96, _ => 0)
  }

  function DecodeState(b: seq<Byte>): Result<FlowState> {
    if |b| != STATE_LEN then Err(InvalidLength(STATE_LEN, |b|))
    else
      var original :- DecodeKey(b[0..40]);
      var target :- DecodeKey(b[40..80]);
      var reverse :- DecodeKey(b[80..120]);
      var lifecycle :- ParseLifecycle(b[138]);
      var s := FlowState(FlowIndex(Le64(b[148..156]), Le32(b[156..160])), original, target, reverse,
                         Le64(b[120..128]), Le32(b[128..132]), Le32(b[132..136]),
                         b[136], b[137], lifecycle, Le64(b[140..148]));
      var _ :- Validate(s);
      Ok(s)
  }

  lemma CountersLayout(s: FlowState)
    ensures var c := Counters(s);
            && c[0..8] == Le(s.lastUsed, 8) && c[8..12] == Le(s.protocolFlags, 4) && c[12..16] == Le(s.tcpFlags, 4)
            && c[16] == s.finSeen && c[17] == s.finAcked && c[18] == LifecycleByte(s.lifecycle)
            && c[20..28] == Le(s.deadline, 8) && c[28..36] == Le(s.index.flowId, 8)
            && c[36..40] == Le(s.index.generation, 4)
  {
  }

  lemma StateLayout(s: FlowState)
    ensures var b := EncodeState(s);
            && b[0..40] == EncodeKey(s.original) && b[40..80] == EncodeKey(s.target)
            && b[80..120] == EncodeKey(s.reverse)
            && b[120..160] == Counters(s)
  {
  }

  lemma SubSlice(b: seq<Byte>, from: nat, len: nat, i: nat, j: nat)
    requires from + len <= |b| && i <= j <= len
    ensures b[from..from + len][i..j] == b[from + i..from + j]
  {
    var c := b[from..from + len];
    assert forall k :: i <= k < j ==> c[k] == b[from + k];
    assert |c[i..j]| == |b[from + i..from + j]|;
  }

  /** The counters sit at the offsets the decoder and the packed C struct use. */
  lemma StateCounters(s: FlowState)
    ensures var b := EncodeState(s);
            && b[120..128] == Le(s.lastUsed, 8) && b[128..132] == Le(s.protocolFlags, 4)
            && b[132..136] == Le(s.tcpFlags, 4)
            && b[136] == s.finSeen && b[137] == s.finAcked && b[138] == LifecycleByte(s.lifecycle)
            && b[140..148] == Le(s.deadline, 8) && b[148..156] == Le(s.index.flowId, 8)
            && b[156..160] == Le(s.index.generation, 4)
  {
    var b, c := EncodeState(s), Counters(s);
    StateLayout(s);
    CountersLayout(s);
    SubSlice(b, 120, 40, 0, 8);
    SubSlice(b, 120, 40, 8, 12);
    SubSlice(b, 120, 40, 12, 16);
    SubSlice(b, 120, 40, 20, 28);
    SubSlice(b, 120, 40, 28, 36);
    SubSlice(b, 120, 40, 36, 40);
    assert b[136] == c[16] && b[137] == c[17] && b[138] == c[18];
  }

  lemma StateNumbers(s: FlowState)
    ensures Le64(Le(s.lastUsed, 8)) == s.lastUsed && Le64(Le(s.deadline, 8)) == s.deadline
    ensures Le64(Le(s.index.flowId, 8)) == s.index.flowId && Le32(Le(s.index.generation, 4)) == s.index.generation
    ensures Le32(Le(s.protocolFlags, 4)) == s.protocolFlags && Le32(Le(s.tcpFlags, 4)) == s.tcpFlags
  {
    Le64RoundTrip(s.lastUsed);
    Le64RoundTrip(s.deadline);
    Le64RoundTrip(s.index.flowId);
    Le32RoundTrip(s.index.generation);
    Le32RoundTrip(s.protocolFlags);
    Le32RoundTrip(s.tcpFlags);
  }

  /** Decoding undoes encoding exactly for the states that validate. */
  lemma StateRoundTrip(s: FlowState)
    ensures DecodeState(EncodeState(s)) == Ok(s) <==> Validate(s).Ok?
  {
    StateLayout(s);
    StateCounters(s);
    StateNumbers(s);
    KeyRoundTrip(s.original);
    KeyRoundTrip(s.target);
    KeyRoundTrip(s.reverse);
  }
}
