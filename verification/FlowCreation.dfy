// What a creation without map faults and without other packets leaves in the maps.
module FlowCreation {
  import opened FlowMaps
  import opened PacketPath
  import opened FlowOwnership

  /** The creator and the maps at one moment. */
  datatype Moment = Moment(m: Maps, pc: Pc)

  /** A step that meets no map fault, under any capacity. */
  ghost predicate CleanStep(a: Moment, b: Moment) {
    exists capacity: nat, c: Choice :: c.ok && ThreadStep(capacity, a.m, a.pc, c) == (b.m, b.pc)
  }

  ghost predicate CleanAt(tr: seq<Moment>, i: nat)
    requires i + 1 < |tr|
  {
    tr[i].pc.Making? && CleanStep(tr[i], tr[i + 1])
  }

  /** From the allocation of the key to its activation. */
  ghost predicate CleanCreation(m0: Maps, k: FlowKey, f: FlowState, tr: seq<Moment>) {
    && tr != [] && tr[0].m == m0 && tr[0].pc.Making? && tr[0].pc == Making(tr[0].pc.pkt, k, f, Pop)
    && tr[|tr| - 1].pc == Resolve(tr[0].pc.pkt, k)
    && forall i {:trigger CleanAt(tr, i)} :: 0 <= i < |tr| - 1 ==> CleanAt(tr, i)
  }

  predicate IsFresh(m: Maps, k: FlowKey, f: FlowState) {
    && k !in m.states && k !in m.inflight
    && f.original !in m.index && f.target !in m.index && f.reverse !in m.index
  }

  /** The maps a creation changes nothing in but the creator's own entries. */
  predicate Elsewhere(m0: Maps, m: Maps) {
    m.guard == m0.guard && m.outcome == m0.outcome && m.finished == m0.finished
  }

  function SomeIndexed(index: map<TupleKey, FlowKey>, k: FlowKey, f: FlowState, n: nat): map<TupleKey, FlowKey> {
    if n == 0 then index
    else if n == 1 then index[f.original := k]
    else if n == 2 then index[f.original := k][f.target := k]
    else Indexed(index, k, f)
  }

  /** The first n tuples were unused. */
  predicate SomeFresh(index: map<TupleKey, FlowKey>, f: FlowState, n: nat) {
    && (n >= 1 ==> f.original !in index) && (n >= 2 ==> f.target !in index) && (n >= 3 ==> f.reverse !in index)
  }

  predicate Inserted(m0: Maps, m: Maps, k: FlowKey, f: FlowState, n: nat) {
    && k !in m0.states && m.states == m0.states[k := f]
    && SomeFresh(m0.index, f, n) && m.index == SomeIndexed(m0.index, k, f, n)
  }

  predicate StageReached(m0: Maps, m: Maps, k: FlowKey, f: FlowState, st: Stage) {
    && (BeforeState(st) ==> m.states == m0.states && m.index == m0.index && m.inflight == m0.inflight)
    && (st.InsertIndex? ==> st.n <= 2 && Inserted(m0, m, k, f, st.n) && m.inflight == m0.inflight)
    && (st.InsertFlight? ==> Inserted(m0, m, k, f, 3) && m.inflight == m0.inflight)
    && (st.Activate? ==> Inserted(m0, m, k, f, 3) && k !in m0.inflight && m.inflight == m0.inflight[k := 0])
  }

  /** What a completed creation leaves behind. */
  predicate Completed(m0: Maps, m: Maps, k: FlowKey, f: FlowState) {
    && IsFresh(m0, k, f)
    && m.states == m0.states[k := f.(lifecycle := Active)] && m.index == Indexed(m0.index, k, f)
    && m.inflight == m0.inflight[k := 0]
  }

  predicate Reached(m0: Maps, m: Maps, pkt: Packet, k: FlowKey, f: FlowState, pc: Pc) {
    && Elsewhere(m0, m)
    && (pc.Making? ==> pc == Making(pkt, k, f, pc.stage) && StageReached(m0, m, k, f, pc.stage))
    && (pc.Resolve? ==> pc == Resolve(pkt, k) && Completed(m0, m, k, f))
  }

  lemma EarlyReached(capacity: nat, m0: Maps, m: Maps, pkt: Packet, k: FlowKey, f: FlowState, st: Stage, c: Choice)
    requires BeforeState(st) && Reached(m0, m, pkt, k, f, Making(pkt, k, f, st)) && c.ok
    ensures var (m', pc') := MakeStep(capacity, m, pkt, k, f, st, c); Reached(m0, m', pkt, k, f, pc')
  {
  }

  lemma IndexReached(capacity: nat, m0: Maps, m: Maps, pkt: Packet, k: FlowKey, f: FlowState, st: Stage, c: Choice)
    requires st.InsertIndex? && Reached(m0, m, pkt, k, f, Making(pkt, k, f, st)) && c.ok
    ensures var (m', pc') := MakeStep(capacity, m, pkt, k, f, st, c); Reached(m0, m', pkt, k, f, pc')
  {
  }

  lemma LateReached(capacity: nat, m0: Maps, m: Maps, pkt: Packet, k: FlowKey, f: FlowState, st: Stage, c: Choice)
    requires !BeforeState(st) && !st.InsertIndex? && Reached(m0, m, pkt, k, f, Making(pkt, k, f, st)) && c.ok
    ensures var (m', pc') := MakeStep(capacity, m, pkt, k, f, st, c); Reached(m0, m', pkt, k, f, pc')
  {
  }

  lemma ReachedStep(m0: Maps, pkt: Packet, k: FlowKey, f: FlowState, a: Moment, b: Moment)
    requires a.pc.Making? && Reached(m0, a.m, pkt, k, f, a.pc) && CleanStep(a, b)
    ensures Reached(m0, b.m, pkt, k, f, b.pc)
  {
    var capacity: nat, c: Choice :| c.ok && ThreadStep(capacity, a.m, a.pc, c) == (b.m, b.pc);
    var st := a.pc.stage;
    if BeforeState(st) { EarlyReached(capacity, m0, a.m, pkt, k, f, st, c); }
    else if st.InsertIndex? { IndexReached(capacity, m0, a.m, pkt, k, f, st, c); }
    else { LateReached(capacity, m0, a.m, pkt, k, f, st, c); }
  }

  lemma ReachedNext(m0: Maps, pkt: Packet, k: FlowKey, f: FlowState, tr: seq<Moment>, i: nat)
    requires CleanCreation(m0, k, f, tr) && i + 1 < |tr| && Reached(m0, tr[i].m, pkt, k, f, tr[i].pc)
    ensures Reached(m0, tr[i + 1].m, pkt, k, f, tr[i + 1].pc)
  {
    var a, b := tr[i], tr[i + 1];
    assert CleanAt(tr, i);
    ReachedStep(m0, pkt, k, f, a, b);
  }

  lemma {:induction false} TraceReached(m0: Maps, k: FlowKey, f: FlowState, tr: seq<Moment>, i: nat)
    requires CleanCreation(m0, k, f, tr) && i < |tr|
    ensures Reached(m0, tr[i].m, tr[0].pc.pkt, k, f, tr[i].pc)
  {
    if i > 0 {
      TraceReached(m0, k, f, tr, i - 1);
      ReachedNext(m0, tr[0].pc.pkt, k, f, tr, i - 1);
    }
  }

  /**
   * Every fault-free creation that activates its key found the key and all three tuples unused and leaves the
   * ACTIVE state, its three index entries and a zero packet count, with guard and outcome untouched.
   */
  lemma CreationEffect(m0: Maps, k: FlowKey, f: FlowState, tr: seq<Moment>)
    requires CleanCreation(m0, k, f, tr)
    ensures Completed(m0, tr[|tr| - 1].m, k, f) && Elsewhere(m0, tr[|tr| - 1].m)
  {
    TraceReached(m0, k, f, tr, |tr| - 1);
  }
}
