// TCP lifecycle tracking, implemented once in the packet program and once on the host.
module TcpLifecycle {
  import opened Prelude
  import opened Octets

  const DEFAULT_GRACE: U64 := 30_000_000_000

  // ----- Bits -----

  /** What a packet's TCP flags say. */
  datatype Seen = Seen(syn: bool, ack: bool, fin: bool, rst: bool)

  /** The wire flag byte. */
  function FromWire(wire: bv8): Seen {
    Seen(wire & 0x02 != 0, wire & 0x10 != 0, wire & 0x01 != 0, wire & 0x04 != 0)
  }

  /** The host's flag word. */
  function FromHost(flags: bv32): Seen {
    Seen(flags & 1 != 0, flags & 4 != 0, flags & 8 != 0, flags & 16 != 0)
  }

  function Translated(wire: bv8): bv32 {
    (if wire & 0x02 != 0 then 1 else 0) | (if wire & 0x10 != 0 then 4 else 0)
    | (if wire & 0x01 != 0 then 8 else 0) | (if wire & 0x04 != 0 then 16 else 0)
  }

  lemma TranslationKeepsFlags(wire: bv8)
    ensures FromHost(Translated(wire)) == FromWire(wire)
  {
    if wire & 0x02 != 0 { assert Translated(wire) & 1 != 0; } else { assert Translated(wire) & 1 == 0; }
    if wire & 0x10 != 0 { assert Translated(wire) & 4 != 0; } else { assert Translated(wire) & 4 == 0; }
    if wire & 0x01 != 0 { assert Translated(wire) & 8 != 0; } else { assert Translated(wire) & 8 == 0; }
    if wire & 0x04 != 0 { assert Translated(wire) & 16 != 0; } else { assert Translated(wire) & 16 == 0; }
  }

  /** One bit per direction; reply traffic is direction one. */
  datatype Mask = Mask(out: bool, back: bool)

  predicate Has(m: Mask, reply: bool) {
    if reply then m.back else m.out
  }

  function With(m: Mask, reply: bool): Mask {
    if reply then m.(back := true) else m.(out := true)
  }

  function MaskByte(m: Mask): bv8 {
    (if m.out then 1 else 0) | (if m.back then 2 else 0)
  }

  function Bit(reply: bool): bv8 {
    if reply then 2 else 1
  }

  /** The two-flag mask is the mask byte: or-ing, testing and comparing with 0b11 agree. */
  lemma MaskIsByte(m: Mask, reply: bool)
    ensures MaskByte(With(m, reply)) == MaskByte(m) | Bit(reply)
    ensures MaskByte(m) & Bit(reply) != 0 <==> Has(m, reply)
    ensures MaskByte(m) == 3 <==> m.out && m.back
  {
  }

  /** The recorded flag bits, from bit zero up. */
  datatype Marks = Marks(syn: bool, synAck: bool, ack: bool, fin: bool, rst: bool)

  function FlagWord(m: Marks): bv32 {
    (if m.syn then 1 else 0) | (if m.synAck then 2 else 0) | (if m.ack then 4 else 0)
    | (if m.fin then 8 else 0) | (if m.rst then 16 else 0)
  }

  /** Setting a recorded flag is or-ing its bit into the word, and the removal rule's RST test reads it back. */
  lemma MarksAreWord(m: Marks)
    ensures FlagWord(m.(syn := true)) == FlagWord(m) | 1
    ensures FlagWord(m.(synAck := true)) == FlagWord(m) | 2
    ensures FlagWord(m.(ack := true)) == FlagWord(m) | 4
    ensures FlagWord(m.(fin := true)) == FlagWord(m) | 8
    ensures FlagWord(m.(rst := true)) == FlagWord(m) | 16
    ensures FlagWord(m) & 16 != 0 <==> m.rst
  {
  }

  // ----- The two trackers -----

  /** What both records hold about a TCP connection. */
  datatype Track = Track(lastUsed: U64, marks: Marks, fin: Mask, ack: Mask, deadline: U64)

  const NO_MARKS := Marks(false, false, false, false, false)
  const NO_MASK := Mask(false, false)

  /** The record a creating packet writes. */
  function Fresh(created: U64): Track {
    Track(created, NO_MARKS, NO_MASK, NO_MASK, 0)
  }

  predicate Full(fin: Mask, ack: Mask) {
    fin == Mask(true, true) && ack == Mask(true, true)
  }

  /** A configured zero, or no configuration, means the default. */
  function Grace(configured: Option<U64>): U64 {
    if configured.Some? && configured.value != 0 then configured.value else DEFAULT_GRACE
  }

  /** 64-bit addition wraps in the program and saturates on the host. */
  function Wrapped(sum: nat): U64
    requires sum < 2 * U64_LIMIT
  {
    if sum < U64_LIMIT then sum else sum - U64_LIMIT
  }

  function Saturated(sum: nat): U64 {
    if sum < U64_LIMIT then sum else U64_LIMIT - 1
  }

  /** Flags and masks after one packet; an acknowledgement counts only against an earlier FIN. */
  function Noted(t: Track, reply: bool, s: Seen, now: U64): Track {
    var acked := s.ack && Has(t.fin, !reply);
    Track(now,
          Marks(t.marks.syn || (s.syn && !reply), t.marks.synAck || (s.syn && reply), t.marks.ack || acked,
                t.marks.fin || s.fin, t.marks.rst || s.rst),
          if s.fin then With(t.fin, reply) else t.fin,
          if acked then With(t.ack, reply) else t.ack,
          t.deadline)
  }

  function Due(t: Track, deadline: U64): Track {
    if Full(t.fin, t.ack) && t.deadline == 0 then t.(deadline := deadline) else t
  }

  /** The same statements one after the other, as the host's tracker has them. */
  function HostNoted(t: Track, reply: bool, s: Seen, now: U64): Track {
    var t1 := t.(lastUsed := now);
    var t2 := if s.syn then t1.(marks := if reply then t1.marks.(synAck := true) else t1.marks.(syn := true)) else t1;
    var t3 := if s.ack && Has(t2.fin, !reply)
              then t2.(marks := t2.marks.(ack := true), ack := With(t2.ack, reply)) else t2;
    var t4 := if s.fin then t3.(marks := t3.marks.(fin := true), fin := With(t3.fin, reply)) else t3;
    if s.rst then t4.(marks := t4.marks.(rst := true)) else t4
  }

  lemma NotedAlike(t: Track, reply: bool, s: Seen, now: U64)
    ensures HostNoted(t, reply, s, now) == Noted(t, reply, s, now)
  {
  }

  function KernelStep(t: Track, p: Packet, grace: U64): Track {
    Due(Noted(t, p.reply, FromWire(p.wire), p.now), Wrapped(p.now + grace))
  }

  function HostStep(t: Track, p: Packet, grace: U64): Track {
    Due(HostNoted(t, p.reply, FromHost(Translated(p.wire)), p.now), Saturated(p.now + grace))
  }

  datatype Packet = Packet(reply: bool, wire: bv8, now: U64)

  /** The record update_tcp_state mutates through its map pointer. */
  class KernelRecord {
    const protocolFlags: int
    var lastUsed: U64
    var marks: Marks
    var fin: Mask
    var ack: Mask
    var deadline: U64

    constructor (protocol: int, created: U64)
      ensures Value() == Fresh(created) && (protocolFlags == 1 <==> protocol == 6)
    {
      protocolFlags := if protocol == 6 then 1 else 2;
      lastUsed, marks, fin, ack, deadline := created, NO_MARKS, NO_MASK, NO_MASK, 0;
    }

    function Value(): Track
      reads this
    {
      Track(lastUsed, marks, fin, ack, deadline)
    }

    /** The flag and mask updates. */
    method Mark(reply: bool, s: Seen, now: U64)
      modifies this
      ensures Value() == Noted(old(Value()), reply, s, now)
    {
      lastUsed := now;
      if s.syn { marks := if reply then marks.(synAck := true) else marks.(syn := true); }
      if s.ack && Has(fin, !reply) {
        marks := marks.(ack := true);
        ack := With(ack, reply);
      }
      if s.fin {
        marks := marks.(fin := true);
        fin := With(fin, reply);
      }
      if s.rst { marks := marks.(rst := true); }
    }

    /** update_tcp_state. */
    method Update(reply: bool, wire: bv8, now: U64, configured: Option<U64>)
      modifies this
      ensures Value() == if protocolFlags == 1
                         then KernelStep(old(Value()), Packet(reply, wire, now), Grace(configured))
                         else old(Value())
    {
      if protocolFlags != 1 { return; }
      Mark(reply, FromWire(wire), now);
      if Full(fin, ack) && deadline == 0 { deadline := Wrapped(now + Grace(configured)); }
    }
  }

  /** The FlowState fields observe_tcp mutates. */
  class HostRecord {
    const protocol: int
    var lastUsed: U64
    var marks: Marks
    var fin: Mask
    var ack: Mask
    var deadline: U64

    constructor (protocol: int, created: U64)
      ensures Value() == Fresh(created) && this.protocol == protocol
    {
      this.protocol := protocol;
      lastUsed, marks, fin, ack, deadline := created, NO_MARKS, NO_MASK, NO_MASK, 0;
    }

    function Value(): Track
      reads this
    {
      Track(lastUsed, marks, fin, ack, deadline)
    }

    /** The flag and mask updates. */
    method Mark(reply: bool, s: Seen, now: U64)
      modifies this
      ensures Value() == HostNoted(old(Value()), reply, s, now)
    {
      lastUsed := now;
      if s.syn { marks := if reply then marks.(synAck := true) else marks.(syn := true); }
      if s.ack && Has(fin, !reply) {
        marks := marks.(ack := true);
        ack := With(ack, reply);
      }
      if s.fin {
        marks := marks.(fin := true);
        fin := With(fin, reply);
      }
      if s.rst { marks := marks.(rst := true); }
    }

    /** observe_tcp. */
    method Observe(direction: nat, flags: bv32, now: U64, grace: U64)
      modifies this
      ensures Value() == if protocol == 6 && direction <= 1
                         then Due(HostNoted(old(Value()), direction == 1, FromHost(flags), now), Saturated(now + grace))
                         else old(Value())
    {
      if protocol != 6 || direction > 1 { return; }
      Mark(direction == 1, FromHost(flags), now);
      if Full(fin, ack) && deadline == 0 { deadline := Saturated(now + grace); }
    }
  }

  // ----- Packet histories -----

  function KernelRun(created: U64, h: seq<Packet>, grace: U64): Track {
    if h == [] then Fresh(created) else KernelStep(KernelRun(created, h[..|h| - 1], grace), h[|h| - 1], grace)
  }

  function HostRun(created: U64, h: seq<Packet>, grace: U64): Track {
    if h == [] then Fresh(created) else HostStep(HostRun(created, h[..|h| - 1], grace), h[|h| - 1], grace)
  }

  /** The packet that makes both masks full, with no deadline yet. */
  predicate Closes(t: Track, p: Packet) {
    var n := Noted(t, p.reply, FromWire(p.wire), p.now);
    Full(n.fin, n.ack) && t.deadline == 0
  }

  /** Equal records stay equal, unless this very packet closes the connection and its deadline overflows. */
  lemma StepsAgree(t: Track, p: Packet, grace: U64)
    ensures KernelStep(t, p, grace) == HostStep(t, p, grace) <==> !Closes(t, p) || p.now + grace < U64_LIMIT
  {
    TranslationKeepsFlags(p.wire);
    NotedAlike(t, p.reply, FromWire(p.wire), p.now);
  }

  // ----- What the bits mean, over the whole history -----

  predicate IsFin(h: seq<Packet>, i: nat, reply: bool) {
    i < |h| && h[i].reply == reply && FromWire(h[i].wire).fin
  }

  /** Packet j acknowledges in this direction after packet i sent the other direction's FIN. */
  predicate IsAck(h: seq<Packet>, i: nat, j: nat, reply: bool) {
    IsFin(h, i, !reply) && i < j < |h| && h[j].reply == reply && FromWire(h[j].wire).ack
  }

  ghost predicate FinSeen(h: seq<Packet>, reply: bool) {
    exists i :: IsFin(h, i, reply)
  }

  ghost predicate FinAcked(h: seq<Packet>, reply: bool) {
    exists i, j :: IsAck(h, i, j, reply)
  }

  ghost predicate Terminated(h: seq<Packet>) {
    FinSeen(h, false) && FinSeen(h, true) && FinAcked(h, false) && FinAcked(h, true)
  }

  lemma FinSeenStep(h: seq<Packet>, p: Packet, reply: bool)
    ensures FinSeen(h + [p], reply) <==> FinSeen(h, reply) || (p.reply == reply && FromWire(p.wire).fin)
  {
    if i :| IsFin(h, i, reply) { assert IsFin(h + [p], i, reply); }
    if i: nat :| i < |h| && IsFin(h + [p], i, reply) { assert IsFin(h, i, reply); }
    if p.reply == reply && FromWire(p.wire).fin { assert IsFin(h + [p], |h|, reply); }
  }

  lemma FinAckedStep(h: seq<Packet>, p: Packet, reply: bool)
    ensures FinAcked(h + [p], reply) <==>
            FinAcked(h, reply) || (p.reply == reply && FromWire(p.wire).ack && FinSeen(h, !reply))
  {
    if i, j :| IsAck(h, i, j, reply) { assert IsAck(h + [p], i, j, reply); }
    if i: nat, j: nat :| IsAck(h + [p], i, j, reply) {
      assert IsFin(h, i, !reply);
      if j < |h| { assert IsAck(h, i, j, reply); }
    }
    if p.reply == reply && FromWire(p.wire).ack && FinSeen(h, !reply) {
      var i :| IsFin(h, i, !reply);
      assert IsAck(h + [p], i, |h|, reply);
    }
  }

  /** The masks are exactly what the history says. */
  lemma {:induction false} MasksMeanHistory(created: U64, h: seq<Packet>, grace: U64, reply: bool)
    ensures Has(KernelRun(created, h, grace).fin, reply) <==> FinSeen(h, reply)
    ensures Has(KernelRun(created, h, grace).ack, reply) <==> FinAcked(h, reply)
  {
    if h != [] {
      var g, p := h[..|h| - 1], h[|h| - 1];
      assert h == g + [p];
      MasksMeanHistory(created, g, grace, reply);
      MasksMeanHistory(created, g, grace, !reply);
      FinSeenStep(g, p, reply);
      FinAckedStep(g, p, reply);
      assert Has(KernelRun(created, h, grace).ack, reply) <==>
             || Has(KernelRun(created, g, grace).ack, reply)
             || (p.reply == reply && FromWire(p.wire).ack && Has(KernelRun(created, g, grace).fin, !reply));
    }
  }

  predicate IsSyn(h: seq<Packet>, i: nat, reply: bool) {
    i < |h| && h[i].reply == reply && FromWire(h[i].wire).syn
  }

  predicate IsRst(h: seq<Packet>, i: nat) {
    i < |h| && FromWire(h[i].wire).rst
  }

  ghost predicate SynSeen(h: seq<Packet>, reply: bool) {
    exists i :: IsSyn(h, i, reply)
  }

  ghost predicate RstSeen(h: seq<Packet>) {
    exists i :: IsRst(h, i)
  }

  lemma SynSeenStep(h: seq<Packet>, p: Packet, reply: bool)
    ensures SynSeen(h + [p], reply) <==> SynSeen(h, reply) || (p.reply == reply && FromWire(p.wire).syn)
  {
    if i :| IsSyn(h, i, reply) { assert IsSyn(h + [p], i, reply); }
    if i: nat :| i < |h| && IsSyn(h + [p], i, reply) { assert IsSyn(h, i, reply); }
    if p.reply == reply && FromWire(p.wire).syn { assert IsSyn(h + [p], |h|, reply); }
  }

  lemma RstSeenStep(h: seq<Packet>, p: Packet)
    ensures RstSeen(h + [p]) <==> RstSeen(h) || FromWire(p.wire).rst
  {
    if i :| IsRst(h, i) { assert IsRst(h + [p], i); }
    if i: nat :| i < |h| && IsRst(h + [p], i) { assert IsRst(h, i); }
    if FromWire(p.wire).rst { assert IsRst(h + [p], |h|); }
  }

  /** What the recorded flags say of a history. */
  ghost predicate MarksRight(h: seq<Packet>, m: Marks) {
    && (m.syn <==> SynSeen(h, false)) && (m.synAck <==> SynSeen(h, true))
    && (m.fin <==> FinSeen(h, false) || FinSeen(h, true))
    && (m.ack <==> FinAcked(h, false) || FinAcked(h, true))
    && (m.rst <==> RstSeen(h))
  }

  lemma MarksStep(h: seq<Packet>, p: Packet, t: Track)
    requires MarksRight(h, t.marks)
    requires forall reply :: Has(t.fin, reply) <==> FinSeen(h, reply)
    ensures MarksRight(h + [p], Noted(t, p.reply, FromWire(p.wire), p.now).marks)
  {
    SynSeenStep(h, p, false);
    SynSeenStep(h, p, true);
    FinSeenStep(h, p, false);
    FinSeenStep(h, p, true);
    FinAckedStep(h, p, false);
    FinAckedStep(h, p, true);
    RstSeenStep(h, p);
    assert Has(t.fin, !p.reply) <==> FinSeen(h, !p.reply);
  }

  /** Every recorded flag is exactly what the history says. */
  lemma {:induction false} MarksMeanHistory(created: U64, h: seq<Packet>, grace: U64)
    ensures MarksRight(h, KernelRun(created, h, grace).marks)
  {
    if h != [] {
      var g, p := h[..|h| - 1], h[|h| - 1];
      MarksMeanHistory(created, g, grace);
      forall reply ensures Has(KernelRun(created, g, grace).fin, reply) <==> FinSeen(g, reply) {
        MasksMeanHistory(created, g, grace, reply);
      }
      assert h == g + [p];
      MarksStep(g, p, KernelRun(created, g, grace));
    }
  }

  /** The history is first terminated by packet k. */
  ghost predicate ClosedAt(h: seq<Packet>, k: nat) {
    k < |h| && Terminated(h[..k + 1]) && !Terminated(h[..k])
  }

  lemma TerminatedStays(h: seq<Packet>, p: Packet)
    requires Terminated(h)
    ensures Terminated(h + [p])
  {
    FinSeenStep(h, p, false);
    FinSeenStep(h, p, true);
    FinAckedStep(h, p, false);
    FinAckedStep(h, p, true);
  }

  lemma FullMeansTerminated(created: U64, h: seq<Packet>, grace: U64)
    ensures Full(KernelRun(created, h, grace).fin, KernelRun(created, h, grace).ack) <==> Terminated(h)
  {
    MasksMeanHistory(created, h, grace, false);
    MasksMeanHistory(created, h, grace, true);
  }

  /** The deadline is set exactly when both FINs are seen and acknowledged, by the packet that completes this. */
  ghost predicate DeadlineRight(h: seq<Packet>, deadline: U64, grace: U64) {
    && (deadline != 0 <==> Terminated(h))
    && (Terminated(h) ==> exists k: nat :: ClosedAt(h, k) && deadline == h[k].now + grace)
  }

  lemma ClosedStays(h: seq<Packet>, p: Packet, k: nat)
    requires ClosedAt(h, k)
    ensures ClosedAt(h + [p], k)
  {
    assert (h + [p])[..k + 1] == h[..k + 1] && (h + [p])[..k] == h[..k];
  }

  lemma ClosedNow(h: seq<Packet>, p: Packet)
    requires !Terminated(h) && Terminated(h + [p])
    ensures ClosedAt(h + [p], |h|)
  {
    assert (h + [p])[..|h| + 1] == h + [p] && (h + [p])[..|h|] == h;
  }

  /** The packet that terminates the history, if there is one, leaves room for the grace below 64 bits. */
  ghost predicate ClosesInTime(h: seq<Packet>, grace: U64) {
    forall k: nat :: ClosedAt(h, k) ==> h[k].now + grace < U64_LIMIT
  }

  lemma PrefixInTime(h: seq<Packet>, p: Packet, grace: U64)
    requires ClosesInTime(h + [p], grace)
    ensures ClosesInTime(h, grace)
  {
    forall k: nat | ClosedAt(h, k) ensures h[k].now + grace < U64_LIMIT {
      ClosedStays(h, p, k);
    }
  }

  lemma DeadlineStep(h: seq<Packet>, p: Packet, before: U64, after: U64, grace: U64)
    requires grace > 0 && DeadlineRight(h, before, grace) && ClosesInTime(h + [p], grace)
    requires after == if Terminated(h + [p]) && before == 0 then Wrapped(p.now + grace) else before
    ensures DeadlineRight(h + [p], after, grace)
  {
    if Terminated(h) {
      TerminatedStays(h, p);
      var k: nat :| ClosedAt(h, k) && before == h[k].now + grace;
      ClosedStays(h, p, k);
    } else if Terminated(h + [p]) {
      ClosedNow(h, p);
    }
  }

  lemma {:induction false} DeadlineMeansHistory(created: U64, h: seq<Packet>, grace: U64)
    requires grace > 0 && ClosesInTime(h, grace)
    ensures DeadlineRight(h, KernelRun(created, h, grace).deadline, grace)
  {
    FullMeansTerminated(created, h, grace);
    if h != [] {
      var g, p := h[..|h| - 1], h[|h| - 1];
      assert h == g + [p];
      PrefixInTime(g, p, grace);
      DeadlineMeansHistory(created, g, grace);
      DeadlineStep(g, p, KernelRun(created, g, grace).deadline, KernelRun(created, h, grace).deadline, grace);
    } else {
      MasksMeanHistory(created, h, grace, false);
    }
  }

  lemma {:induction false} NoDeadline(created: U64, h: seq<Packet>, grace: U64)
    requires !Terminated(h)
    ensures KernelRun(created, h, grace).deadline == 0
  {
    FullMeansTerminated(created, h, grace);
    if h != [] {
      var g, p := h[..|h| - 1], h[|h| - 1];
      assert h == g + [p];
      if Terminated(g) { TerminatedStays(g, p); }
      NoDeadline(created, g, grace);
    }
  }

  // ----- Agreement -----

  /** Both trackers hold the same record after the first n packets. */
  predicate AgreeAt(created: U64, h: seq<Packet>, grace: U64, n: nat)
    requires n <= |h|
  {
    KernelRun(created, h[..n], grace) == HostRun(created, h[..n], grace)
  }

  lemma NextClosesExactly(created: U64, h: seq<Packet>, grace: U64, n: nat)
    requires n < |h|
    ensures ClosedAt(h, n) ==> Closes(KernelRun(created, h[..n], grace), h[n])
    ensures Closes(KernelRun(created, h[..n], grace), h[n]) && grace > 0 && ClosesInTime(h[..n], grace) ==>
              ClosedAt(h, n)
  {
    var g := h[..n];
    assert h[..n + 1] == g + [h[n]] && (g + [h[n]])[..n] == g;
    FullMeansTerminated(created, h[..n + 1], grace);
    if !Terminated(g) { NoDeadline(created, g, grace); }
    else if grace > 0 && ClosesInTime(g, grace) { DeadlineMeansHistory(created, g, grace); }
  }

  lemma RunsStep(created: U64, h: seq<Packet>, grace: U64, n: nat)
    requires n < |h|
    ensures KernelRun(created, h[..n + 1], grace) == KernelStep(KernelRun(created, h[..n], grace), h[n], grace)
    ensures HostRun(created, h[..n + 1], grace) == HostStep(HostRun(created, h[..n], grace), h[n], grace)
  {
    assert h[..n + 1][..n] == h[..n];
  }

  lemma InTimePrefix(h: seq<Packet>, grace: U64, n: nat)
    requires ClosesInTime(h, grace) && n <= |h|
    ensures ClosesInTime(h[..n], grace)
  {
    forall k: nat | ClosedAt(h[..n], k) ensures h[..n][k].now + grace < U64_LIMIT {
      assert h[..n][..k] == h[..k] && h[..n][..k + 1] == h[..k + 1];
      assert ClosedAt(h, k);
    }
  }

  lemma NextFits(created: U64, h: seq<Packet>, grace: U64, n: nat)
    requires n < |h| && ClosesInTime(h, grace) && Closes(KernelRun(created, h[..n], grace), h[n])
    ensures h[n].now + grace < U64_LIMIT
  {
    InTimePrefix(h, grace, n);
    NextClosesExactly(created, h, grace, n);
  }

  lemma AgreeNext(created: U64, h: seq<Packet>, grace: U64, n: nat)
    requires n < |h| && AgreeAt(created, h, grace, n)
    ensures AgreeAt(created, h, grace, n + 1) <==>
            !Closes(KernelRun(created, h[..n], grace), h[n]) || h[n].now + grace < U64_LIMIT
  {
    RunsStep(created, h, grace, n);
    StepsAgree(KernelRun(created, h[..n], grace), h[n], grace);
  }

  lemma {:induction false} InTimeAgrees(created: U64, h: seq<Packet>, grace: U64, n: nat)
    requires n <= |h| && ClosesInTime(h, grace)
    ensures AgreeAt(created, h, grace, n)
  {
    if n > 0 {
      InTimeAgrees(created, h, grace, n - 1);
      if Closes(KernelRun(created, h[..n - 1], grace), h[n - 1]) { NextFits(created, h, grace, n - 1); }
      AgreeNext(created, h, grace, n - 1);
    }
  }

  /** The trackers agree all along a history exactly if the packet that terminates it, if any,
      does not overflow 64 bits. */
  lemma TrackersAgree(created: U64, h: seq<Packet>, grace: U64)
    ensures (forall n :: 0 <= n <= |h| ==> AgreeAt(created, h, grace, n)) <==> ClosesInTime(h, grace)
  {
    if ClosesInTime(h, grace) {
      forall n | 0 <= n <= |h| ensures AgreeAt(created, h, grace, n) { InTimeAgrees(created, h, grace, n); }
    } else {
      var k: nat :| ClosedAt(h, k) && h[k].now + grace >= U64_LIMIT;
      NextClosesExactly(created, h, grace, k);
      if AgreeAt(created, h, grace, k) { AgreeNext(created, h, grace, k); }
    }
  }

  predicate Grows(t: Track, t': Track) {
    && (forall reply :: Has(t.fin, reply) ==> Has(t'.fin, reply))
    && (forall reply :: Has(t.ack, reply) ==> Has(t'.ack, reply))
    && (t.marks.syn ==> t'.marks.syn) && (t.marks.synAck ==> t'.marks.synAck) && (t.marks.ack ==> t'.marks.ack)
    && (t.marks.fin ==> t'.marks.fin) && (t.marks.rst ==> t'.marks.rst)
    && (t.deadline != 0 ==> t'.deadline == t.deadline)
  }

  lemma StepGrows(t: Track, p: Packet, grace: U64)
    ensures Grows(t, KernelStep(t, p, grace)) && Grows(t, HostStep(t, p, grace))
  {
    NotedAlike(t, p.reply, FromHost(Translated(p.wire)), p.now);
  }

  lemma GrowsOn(a: Track, b: Track, c: Track)
    requires Grows(a, b) && Grows(b, c)
    ensures Grows(a, c)
  {
  }

  /** Over any longer history masks and flags only grow and a set deadline never changes. */
  lemma {:induction false} OnlyGrows(created: U64, h: seq<Packet>, n: nat, grace: U64)
    requires n <= |h|
    ensures Grows(KernelRun(created, h[..n], grace), KernelRun(created, h, grace))
    ensures Grows(HostRun(created, h[..n], grace), HostRun(created, h, grace))
  {
    if n == |h| {
      assert h[..n] == h;
    } else {
      var g, p := h[..|h| - 1], h[|h| - 1];
      OnlyGrows(created, g, n, grace);
      assert g[..n] == h[..n];
      var k, r := KernelRun(created, g, grace), HostRun(created, g, grace);
      StepGrows(k, p, grace);
      StepGrows(r, p, grace);
      GrowsOn(KernelRun(created, h[..n], grace), k, KernelStep(k, p, grace));
      GrowsOn(HostRun(created, h[..n], grace), r, HostStep(r, p, grace));
    }
  }

  /** An acknowledged FIN was seen. */
  lemma {:induction false} AckImpliesFin(created: U64, h: seq<Packet>, grace: U64, reply: bool)
    ensures Has(KernelRun(created, h, grace).ack, reply) ==> Has(KernelRun(created, h, grace).fin, !reply)
    ensures Has(HostRun(created, h, grace).ack, reply) ==> Has(HostRun(created, h, grace).fin, !reply)
  {
    if h != [] { AckImpliesFin(created, h[..|h| - 1], grace, reply); }
  }
}
