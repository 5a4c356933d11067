// The packet side: process_packet of crates/bpf/shadow-socket-proxy.bpf.c, cut at
// every map operation. A thread is one CPU running the classifier again and again.
module PacketPath {
  import opened Prelude
  import opened FlowMaps

  datatype Packet = Packet(tuple: TupleKey, ingress: bool)

  /** Program points inside deletion_guard_active. */
  datatype Guard =
    | ReadGuard
    | ReadOutcome(seen: Option<nat>)
    | Abort
    | DropGuard
    | Reread

  /** Program points of the creator, who owns its fresh key until Activate. */
  datatype Stage =
    | Pop
    | Claim(release: FlowKey)
    | ReleaseClaim
    | Reserve
    | InsertState
    | InsertIndex(n: nat)
    | InsertFlight
    | Activate
    | UndoCheck(n: nat, retry: bool)
    | UndoDelete(n: nat, retry: bool)
    | UndoFlight(retry: bool)
    | UndoState(retry: bool)

  /** Program points of enter_flow_packet, the rewrite and leave_flow_packet. */
  datatype Spot =
    | First(g: Guard)
    | FindFlight
    | Enter
    | Second(g: Guard)
    | Reresolve
    | BackOut
    | Admitted
    | Rewriting
    | Leave

  datatype Pc =
    | Idle
    | Allocate(pkt: Packet)
    | Making(pkt: Packet, key: FlowKey, flow: FlowState, stage: Stage)
    | Overshoot
    | GiveBack(pkt: Packet, retry: bool)
    | Relook(pkt: Packet)
    | Resolve(pkt: Packet, key: FlowKey)
    | Inside(pkt: Packet, key: FlowKey, at: Spot)

  /** Everything a step does not control: the packet, the clock, the selected target and map faults. */
  datatype Choice = Choice(pkt: Packet, flowId: nat, target: Option<Endpoint>, now: nat, ok: bool)

  /** release_flow_slot; ok is false when all eight compare-and-swaps lose. */
  function ReleaseSlot(m: Maps, ok: bool): Maps {
    if m.active <= 0 then m
    else if ok then m.(active := m.active - 1)
    else m.(giveUps := m.giveUps + 1)
  }

  function AfterUndo(pkt: Packet, key: FlowKey, flow: FlowState, n: nat, retry: bool): Pc {
    if n < 2 then Making(pkt, key, flow, UndoCheck(n + 1, retry))
    else Making(pkt, key, flow, UndoFlight(retry))
  }

  function MakeStep(capacity: nat, m: Maps, pkt: Packet, key: FlowKey, flow: FlowState, stage: Stage,
                    c: Choice): (Maps, Pc)
  {
    match stage
    case Pop =>
      if m.queue == [] then (m, Making(pkt, key, flow, Reserve))
      else (m.(queue := m.queue[1..]), Making(pkt, key, flow, Claim(m.queue[0])))
    case Claim(release) =>
      if release in m.journal then (m.(journal := m.journal - {release}), Making(pkt, key, flow, ReleaseClaim))
      else (m, Making(pkt, key, flow, Reserve))
    case ReleaseClaim =>
      (ReleaseSlot(m, c.ok), Making(pkt, key, flow, Reserve))
    case Reserve =>
      (m.(active := m.active + 1),
       if capacity != 0 && m.active >= capacity then Overshoot else Making(pkt, key, flow, InsertState))
    case InsertState =>
      if key in m.states || !c.ok then (m, GiveBack(pkt, true))
      else (m.(states := m.states[key := flow]), Making(pkt, key, flow, InsertIndex(0)))
    case InsertIndex(n) =>
      var t := TupleAt(flow, n);
      if t in m.index || !c.ok then (m, Making(pkt, key, flow, UndoCheck(0, true)))
      else (m.(index := m.index[t := key]),
            if n < 2 then Making(pkt, key, flow, InsertIndex(n + 1)) else Making(pkt, key, flow, InsertFlight))
    case InsertFlight =>
      if key in m.inflight || !c.ok then (m, Making(pkt, key, flow, UndoCheck(0, true)))
      else (m.(inflight := m.inflight[key := 0]), Making(pkt, key, flow, Activate))
    case Activate =>
      if key !in m.states || !c.ok then (m, Making(pkt, key, flow, UndoCheck(0, false)))
      else (m.(states := m.states[key := flow.(lifecycle := Active)], settled := m.settled + {key}),
            Resolve(pkt, key))
    case UndoCheck(n, retry) =>
      if Names(m, TupleAt(flow, n), key) then (m, Making(pkt, key, flow, UndoDelete(n, retry)))
      else (m, AfterUndo(pkt, key, flow, n, retry))
    case UndoDelete(n, retry) =>
      (m.(index := m.index - {TupleAt(flow, n)}), AfterUndo(pkt, key, flow, n, retry))
    case UndoFlight(retry) =>
      (m.(inflight := m.inflight - {key}), Making(pkt, key, flow, UndoState(retry)))
    case UndoState(retry) =>
      (m.(states := m.states - {key}), GiveBack(pkt, retry))
  }

  datatype Verdict = Pass | Blocked | Continue(g: Guard)

  /** One map operation of deletion_guard_active. */
  function GuardStep(m: Maps, key: FlowKey, g: Guard, c: Choice): (Maps, Verdict) {
    match g
    case ReadGuard =>
      (m, Continue(ReadOutcome(if key in m.guard then Some(m.guard[key]) else None)))
    case ReadOutcome(seen) =>
      if key in m.outcome then (m, if m.outcome[key] == Committed then Blocked else Pass)
      else if seen.None? then (m, Pass)
      else if c.now >= seen.value then (m, Continue(Abort))
      else (m, Blocked)
    case Abort =>
      if key in m.outcome || !c.ok then (m, Continue(Reread))
      else (m.(outcome := m.outcome[key := Aborted]), Continue(DropGuard))
    case DropGuard =>
      (m.(guard := m.guard - {key}), Pass)
    case Reread =>
      (m, if key in m.outcome && m.outcome[key] == Committed then Blocked else Pass)
  }

  function InsideStep(m: Maps, pkt: Packet, key: FlowKey, at: Spot, c: Choice): (Maps, Pc) {
    match at
    case First(g) =>
      var (m', v) := GuardStep(m, key, g, c);
      (m', match v
           case Pass => Inside(pkt, key, FindFlight)
           case Blocked => Idle
           case Continue(g') => Inside(pkt, key, First(g')))
    case FindFlight =>
      (m, if key in m.inflight then Inside(pkt, key, Enter) else Idle)
    case Enter =>
      (m.(inflight := Bump(m.inflight, key, 1)), Inside(pkt, key, Second(ReadGuard)))
    case Second(g) =>
      var (m', v) := GuardStep(m, key, g, c);
      (m', match v
           case Pass => Inside(pkt, key, Reresolve)
           case Blocked => Inside(pkt, key, BackOut)
           case Continue(g') => Inside(pkt, key, Second(g')))
    case Reresolve =>
      (m, Inside(pkt, key, if IsActive(m, key) then Admitted else BackOut))
    case BackOut =>
      (m.(inflight := Bump(m.inflight, key, -1)), Idle)
    case Admitted =>
      (if key in m.states then m.(states := m.states[key := m.states[key].(lastUsed := c.now)]) else m,
       Inside(pkt, key, Rewriting))
    case Rewriting =>
      (m, Inside(pkt, key, Leave))
    case Leave =>
      (m.(inflight := Bump(m.inflight, key, -1)), Idle)
  }

  /** The tuple a packet carries after rewrite_destination or rewrite_source. */
  function Rewritten(f: FlowState, pkt: Packet): TupleKey {
    if pkt.ingress then pkt.tuple.(destination := f.target.destination)
    else pkt.tuple.(source := f.original.destination)
  }

  function Lookup(m: Maps, pkt: Packet, miss: Pc): Pc {
    if pkt.tuple in m.index then Resolve(pkt, m.index[pkt.tuple]) else miss
  }

  function ThreadStep(capacity: nat, m: Maps, pc: Pc, c: Choice): (Maps, Pc) {
    match pc
    case Idle =>
      (m, Lookup(m, c.pkt, if c.pkt.ingress && c.target.Some? then Allocate(c.pkt) else Idle))
    case Allocate(pkt) =>
      if c.target.None? then (m, pc)
      else
        (m.(nextGeneration := m.nextGeneration + 1),
         Making(pkt, FlowKey(c.flowId, m.nextGeneration + 1), NewFlow(pkt.tuple, c.target.value, c.now), Pop))
    case Making(pkt, key, flow, stage) => MakeStep(capacity, m, pkt, key, flow, stage, c)
    case Overshoot => (m.(active := m.active - 1), Idle)
    case GiveBack(pkt, retry) => (ReleaseSlot(m, c.ok), if retry then Relook(pkt) else Idle)
    case Relook(pkt) => (m, Lookup(m, pkt, Idle))
    case Resolve(pkt, key) => (m, if IsActive(m, key) then Inside(pkt, key, First(ReadGuard)) else Idle)
    case Inside(pkt, key, at) => InsideStep(m, pkt, key, at, c)
  }
}
