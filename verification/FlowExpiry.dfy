// The host's expiry decision against the record's own deletion rule.
module FlowExpiry {
  import opened Octets
  import opened TcpLifecycle

  const TCP := 6
  const UDP := 17

  function Since(now: U64, then_: U64): nat {
    if now >= then_ then now - then_ else 0
  }

  /** FlowState::should_delete. */
  predicate ShouldDelete(t: Track, protocol: int, creating: bool, now: U64, idleTtl: U64) {
    || creating
    || t.marks.rst
    || (if protocol == TCP && t.deadline != 0 then now >= t.deadline else Since(now, t.lastUsed) >= idleTtl)
  }

  /** The expiry decision of run_maintenance, on an enumerated flow and the clock it was enumerated at. */
  predicate Expired(t: Track, protocol: int, now: U64, idleTtl: U64, grace: U64, udpIdle: U64) {
    var age := Since(now, t.lastUsed);
    var terminal := protocol == TCP && Full(t.fin, t.ack);
    var threshold := if protocol == UDP then udpIdle else idleTtl;
    t.marks.rst || (!terminal && age >= threshold) || (terminal && age >= grace)
  }

  /** What the packet path has recorded: UDP packets only refresh the last use. */
  function Recorded(protocol: int, created: U64, h: seq<Packet>, grace: U64): Track {
    if protocol == TCP then KernelRun(created, h, grace)
    else if h == [] then Fresh(created) else Fresh(h[|h| - 1].now)
  }

  /** Creation, packets and the observation in clock order. */
  predicate Monotone(created: U64, h: seq<Packet>, now: U64) {
    && created <= now
    && (forall i :: 0 <= i < |h| ==> created <= h[i].now <= now)
    && (forall i, j :: 0 <= i <= j < |h| ==> h[i].now <= h[j].now)
  }

  lemma LastUsedIsLast(created: U64, h: seq<Packet>, grace: U64)
    ensures KernelRun(created, h, grace).lastUsed == if h == [] then created else h[|h| - 1].now
  {
  }

  lemma TerminalNeverEarly(created: U64, h: seq<Packet>, now: U64, grace: U64)
    requires Monotone(created, h, now) && grace > 0 && Terminated(h)
    requires Since(now, KernelRun(created, h, grace).lastUsed) >= grace
    ensures 0 < KernelRun(created, h, grace).deadline <= now
  {
    LastUsedIsLast(created, h, grace);
    NonEmpty(h);
    assert forall i :: 0 <= i < |h| ==> h[i].now <= h[|h| - 1].now;
    DeadlineMeansHistory(created, h, grace);
    var t := KernelRun(created, h, grace);
    var k: nat :| ClosedAt(h, k) && t.deadline == h[k].now + grace;
  }

  lemma NonEmpty(h: seq<Packet>)
    requires Terminated(h)
    ensures h != []
  {
    var i: nat :| IsFin(h, i, false);
  }

  /** Any flow the host would expire, its record would delete too, at the same observed time. */
  lemma ExpiryNeverEarly(protocol: int, creating: bool, created: U64, h: seq<Packet>, now: U64,
                         idleTtl: U64, grace: U64, udpIdle: U64)
    requires Monotone(created, h, now) && grace > 0 && udpIdle >= idleTtl
    requires Expired(Recorded(protocol, created, h, grace), protocol, now, idleTtl, grace, udpIdle)
    ensures ShouldDelete(Recorded(protocol, created, h, grace), protocol, creating, now, idleTtl)
  {
    if protocol == TCP {
      FullMeansTerminated(created, h, grace);
      var t := KernelRun(created, h, grace);
      if !Terminated(h) { NoDeadline(created, h, grace); }
      else if !t.marks.rst { TerminalNeverEarly(created, h, now, grace); }
    }
  }

  predicate UdpInOrder(lastUsed: U64, now: U64, idleTtl: U64, udpIdle: U64) {
    Expired(Fresh(lastUsed), UDP, now, idleTtl, 1, udpIdle) ==> ShouldDelete(Fresh(lastUsed), UDP, false, now, idleTtl)
  }

  /** The timeout condition is exact: with a shorter UDP timeout some flow is expired early. */
  lemma UdpTimeoutExact(idleTtl: U64, udpIdle: U64)
    ensures (forall lastUsed: U64, now: U64 :: UdpInOrder(lastUsed, now, idleTtl, udpIdle)) <==> udpIdle >= idleTtl
  {
    if udpIdle < idleTtl { assert !UdpInOrder(0, udpIdle, idleTtl, udpIdle); }
  }
}
