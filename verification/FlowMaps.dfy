// The BPF maps shared by the packet classifier (crates/bpf/shadow-socket-proxy.bpf.c)
// and the control service (crates/control-service/src/bpf.rs), as one value.
// Every step of the protocol machine performs at most one operation on them.
module FlowMaps {
  import opened Prelude

  /** A normalized 16-byte address and a transport port. */
  datatype Endpoint = Endpoint(address: seq<nat>, port: nat)

  /** The packed tuple key: family and protocol plus the two endpoints. */
  datatype TupleKey = TupleKey(family: nat, protocol: nat, source: Endpoint, destination: Endpoint)

  /** The tuple of a packet travelling the other way. */
  function Swap(t: TupleKey): TupleKey {
    t.(source := t.destination, destination := t.source)
  }

  /** Identity of one flow incarnation. Generations are unbounded here, so a key is never reused. */
  datatype FlowKey = FlowKey(flowId: nat, generation: nat)

  datatype Lifecycle = Creating | Active

  datatype FlowState = FlowState(
    original: TupleKey,
    target: TupleKey,
    reverse: TupleKey,
    lastUsed: nat,
    lifecycle: Lifecycle)

  /** The record a creating packet builds from its own tuple and the selected target. */
  function NewFlow(t: TupleKey, target: Endpoint, now: nat): FlowState {
    FlowState(t, t.(destination := target), t.(source := target, destination := t.source), now, Creating)
  }

  /** The three tuples of a flow in the order the creator inserts them. */
  function TupleAt(f: FlowState, n: nat): TupleKey {
    if n == 0 then f.original else if n == 1 then f.target else f.reverse
  }

  predicate HasTuple(f: FlowState, t: TupleKey) {
    t == f.original || t == f.target || t == f.reverse
  }

  predicate SameTuples(f: FlowState, g: FlowState) {
    f.original == g.original && f.target == g.target && f.reverse == g.reverse
  }

  datatype Outcome = Aborted | Committed

  datatype DeleteOp = DeleteOp(key: FlowKey, observed: nat, deadline: nat)

  datatype Report =
    | Report(stateDeleted: bool, indexesDeleted: nat, partial: bool, stale: bool, mismatch: bool)
    | Failed

  const NothingDone := Report(false, 0, false, false, false)
  const Mismatch := Report(false, 0, false, false, true)

  /** A finished delete, with the timestamp the state carried when it was removed. */
  datatype Finished = Finished(op: DeleteOp, report: Report, removedAt: Option<nat>)

  datatype Maps = Maps(
    index: map<TupleKey, FlowKey>,
    states: map<FlowKey, FlowState>,
    inflight: map<FlowKey, int>,
    guard: map<FlowKey, nat>,
    outcome: map<FlowKey, Outcome>,
    active: int,
    queue: seq<FlowKey>,
    journal: set<FlowKey>,
    nextGeneration: nat,
    // History variables: no step reads them.
    settled: set<FlowKey>,     // generations out of their creator's hands: once ACTIVE, or named by a delete
    orphans: set<FlowKey>,     // generations whose index cleanup met a map fault and was not yet redone
    giveUps: nat,              // slot releases abandoned after eight failed compare-and-swaps
    finished: seq<Finished>)

  const EmptyMaps := Maps(map[], map[], map[], map[], map[], 0, [], {}, 0, {}, {}, 0, [])

  predicate IsActive(m: Maps, k: FlowKey) {
    k in m.states && m.states[k].lifecycle == Active
  }

  predicate Names(m: Maps, t: TupleKey, k: FlowKey) {
    t in m.index && m.index[t] == k
  }

  /** The index after the three tuples of a flow were stored. */
  function Indexed(index: map<TupleKey, FlowKey>, k: FlowKey, f: FlowState): map<TupleKey, FlowKey> {
    index[f.original := k][f.target := k][f.reverse := k]
  }

  /** One slot is owed by every live or journaled generation. */
  function Owing(m: Maps): set<FlowKey> {
    m.states.Keys + m.journal
  }

  function Bump(m: map<FlowKey, int>, k: FlowKey, delta: int): map<FlowKey, int> {
    if k in m then m[k := m[k] + delta] else m
  }
}
