// The host side: AyaLinuxTcAdapter::delete_flow of crates/control-service/src/bpf.rs,
// cut at every map operation. Any operation may fail (ok == false) with no effect.
module HostOperation {
  import opened Prelude
  import opened FlowMaps

  const DRAIN_TRIES: nat := 128

  /** What the cleanup closure has established so far. */
  datatype Progress = Progress(
    guarded: bool,             // the state was present at the start, so a guard is installed
    stateDeleted: bool,
    deleted: nat,
    partial: bool,
    stale: bool,
    faulted: bool,             // an index operation failed
    removedAt: Option<nat>)    // history: last_used_ns of the removed state

  datatype Phase =
    | ReadInitial
    | ForgetGuard
    | ForgetOutcome
    | Scan
    | ReadOldGuard
    | DropOldGuard
    | ClearOutcome
    | InsertGuard
    | Drain(tries: nat)
    | ReadStable
    | Commit
    | Quiesce(tries: nat)
    | ReadCommitted
    | Journal(flow: FlowState)
    | RemoveState(flow: FlowState)
    | Unjournal
    | CheckIndex(keys: seq<TupleKey>, prog: Progress)
    | RemoveIndex(keys: seq<TupleKey>, prog: Progress)
    | RemoveFlight(prog: Progress)
    | ReadPending(prog: Progress)
    | Publish(prog: Progress)
    | RemoveGuard(report: Report, removedAt: Option<nat>)
    | RemoveOutcome(report: Report, removedAt: Option<nat>)

  datatype Host = Waiting | Busy(op: DeleteOp, at: Phase)

  /** The clock, map faults and the order in which a map iteration yields keys. */
  datatype HostChoice = HostChoice(now: nat, ok: bool, order: seq<TupleKey>)

  function Finish(m: Maps, op: DeleteOp, report: Report, removedAt: Option<nat>): (Maps, Host) {
    (m.(finished := m.finished + [Finished(op, report, removedAt)]), Waiting)
  }

  function Cleanup(op: DeleteOp, report: Report): Host {
    Busy(op, RemoveGuard(report, None))
  }

  function ReportOf(prog: Progress): Report {
    Report(prog.stateDeleted, prog.deleted, prog.partial, prog.stale, false)
  }

  /** Leaving the closure: a guarded operation still has its guard and outcome to remove. */
  function Conclude(m: Maps, op: DeleteOp, prog: Progress, report: Report): (Maps, Host) {
    if prog.guarded then (m, Busy(op, RemoveGuard(report, prog.removedAt)))
    else Finish(m, op, report, prog.removedAt)
  }

  function Tainted(report: Report): Report {
    if report.Failed? then Failed else report.(partial := true)
  }

  predicate OtherGenerationIndexed(m: Maps, k: FlowKey) {
    exists t :: t in m.index && m.index[t].flowId == k.flowId && m.index[t].generation != k.generation
  }

  predicate Enumerates(order: seq<TupleKey>, m: Maps, k: FlowKey) {
    && (forall t :: t in order ==> Names(m, t, k))
    && (forall t :: t in m.index && m.index[t] == k ==> t in order)
  }

  predicate Opening(at: Phase) {
    at.ReadInitial? || at.ForgetGuard? || at.ForgetOutcome? || at.Scan? || at.ReadOldGuard?
    || at.DropOldGuard? || at.ClearOutcome? || at.InsertGuard?
  }

  predicate Committing(at: Phase) {
    at.Drain? || at.ReadStable? || at.Commit? || at.Quiesce? || at.ReadCommitted?
    || at.Journal? || at.RemoveState? || at.Unjournal?
  }

  /** From the first read to the guard insertion. */
  function OpenStep(m: Maps, op: DeleteOp, at: Phase, c: HostChoice): (Maps, Host)
    requires Opening(at)
  {
    match at
    case ReadInitial =>
      if !c.ok then Finish(m, op, Failed, None)
      else (m, Busy(op, if op.key in m.states then ReadOldGuard else ForgetGuard))
    case ForgetGuard =>
      (if c.ok then m.(guard := m.guard - {op.key}) else m, Busy(op, ForgetOutcome))
    case ForgetOutcome =>
      (if c.ok then m.(outcome := m.outcome - {op.key}) else m, Busy(op, Scan))
    case Scan =>
      if !c.ok then Finish(m, op, Failed, None)
      else if !Enumerates(c.order, m, op.key) then (m, Busy(op, Scan))
      else
        (m, Busy(op, CheckIndex(c.order,
                                Progress(false, false, 0, false, OtherGenerationIndexed(m, op.key), false, None))))
    case ReadOldGuard =>
      if !c.ok then Finish(m, op, Failed, None)
      else if op.key !in m.guard then (m, Busy(op, ClearOutcome))
      else if c.now <= m.guard[op.key] then Finish(m, op, Mismatch, None)
      else (m, Busy(op, DropOldGuard))
    case DropOldGuard =>
      if !c.ok || op.key !in m.guard then Finish(m, op, Failed, None)
      else (m.(guard := m.guard - {op.key}), Busy(op, ClearOutcome))
    case ClearOutcome =>
      (if c.ok then m.(outcome := m.outcome - {op.key}) else m, Busy(op, InsertGuard))
    case InsertGuard =>
      if !c.ok || op.key in m.guard then Finish(m, op, Failed, None)
      else (m.(guard := m.guard[op.key := op.deadline]), Busy(op, Drain(0)))
  }

  predicate InFlightZero(m: Maps, k: FlowKey) {
    k !in m.inflight || m.inflight[k] == 0
  }

  /** From the first drain to the removal of the state. */
  function CommitStep(m: Maps, op: DeleteOp, at: Phase, c: HostChoice): (Maps, Host)
    requires Committing(at)
  {
    match at
    case Drain(tries) =>
      if !c.ok then (m, Cleanup(op, Failed))
      else if InFlightZero(m, op.key) then (m, Busy(op, ReadStable))
      else if tries + 1 < DRAIN_TRIES then (m, Busy(op, Drain(tries + 1)))
      else (m, Cleanup(op, Mismatch))
    case ReadStable =>
      if !c.ok then (m, Cleanup(op, Failed))
      else if op.key !in m.states then (m, Cleanup(op, Mismatch))
      else (m, Busy(op, Commit))
    case Commit =>
      if !c.ok || op.key in m.outcome then (m, Cleanup(op, Mismatch))
      else (m.(outcome := m.outcome[op.key := Committed]), Busy(op, Quiesce(0)))
    case Quiesce(tries) =>
      if !c.ok then (m, Cleanup(op, Failed))
      else if InFlightZero(m, op.key) then (m, Busy(op, ReadCommitted))
      else if tries + 1 < DRAIN_TRIES then (m, Busy(op, Quiesce(tries + 1)))
      else (m, Cleanup(op, Mismatch))
    case ReadCommitted =>
      if !c.ok then (m, Cleanup(op, Failed))
      else if op.key !in m.states then (m, Cleanup(op, NothingDone))
      else if op.observed != 0 && m.states[op.key].lastUsed != op.observed then (m, Cleanup(op, Mismatch))
      else (m, Busy(op, Journal(m.states[op.key])))
    case Journal(flow) =>
      if !c.ok then (m, Cleanup(op, Failed))
      else (m.(journal := m.journal + {op.key}), Busy(op, RemoveState(flow)))
    case RemoveState(flow) =>
      if !c.ok || op.key !in m.states then (m, Busy(op, Unjournal))
      else (m.(states := m.states - {op.key}),
            Busy(op, CheckIndex([flow.original, flow.target, flow.reverse],
                                Progress(true, true, 0, false, false, false, Some(m.states[op.key].lastUsed)))))
    case Unjournal =>
      (if c.ok then m.(journal := m.journal - {op.key}) else m,
       Busy(op, ReadPending(Progress(true, false, 0, true, false, false, None))))
  }

  function Faulted(prog: Progress): Progress {
    prog.(partial := true, faulted := true)
  }

  /** Index cleanup, the release publication and the removal of guard and outcome. */
  function CloseStep(m: Maps, op: DeleteOp, at: Phase, c: HostChoice): (Maps, Host)
    requires !Opening(at) && !Committing(at)
  {
    match at
    case CheckIndex(keys, prog) =>
      if keys == [] then
        (if prog.faulted then m else m.(orphans := m.orphans - {op.key}), Busy(op, RemoveFlight(prog)))
      else if !c.ok then
        (m.(orphans := m.orphans + {op.key}), Busy(op, CheckIndex(keys[1..], Faulted(prog))))
      else if Names(m, keys[0], op.key) then (m, Busy(op, RemoveIndex(keys, prog)))
      else (m, Busy(op, CheckIndex(keys[1..], prog)))
    case RemoveIndex(keys, prog) =>
      if keys == [] then (m, Busy(op, CheckIndex([], prog)))
      else if !c.ok || keys[0] !in m.index then
        (m.(orphans := m.orphans + {op.key}), Busy(op, CheckIndex(keys[1..], Faulted(prog))))
      else
        (m.(index := m.index - {keys[0]}), Busy(op, CheckIndex(keys[1..], prog.(deleted := prog.deleted + 1))))
    case RemoveFlight(prog) =>
      if !c.ok then (m, Busy(op, ReadPending(prog.(partial := true))))
      else (m.(inflight := m.inflight - {op.key}), Busy(op, ReadPending(prog)))
    case ReadPending(prog) =>
      if !c.ok then Conclude(m, op, prog, Failed)
      else if op.key in m.journal && (prog.stateDeleted || !prog.guarded) then (m, Busy(op, Publish(prog)))
      else Conclude(m, op, prog, ReportOf(prog))
    case Publish(prog) =>
      if !c.ok then Conclude(m, op, prog, ReportOf(prog.(partial := true)))
      else Conclude(m.(queue := m.queue + [op.key]), op, prog, ReportOf(prog))
    case RemoveGuard(report, removedAt) =>
      (if c.ok then m.(guard := m.guard - {op.key}) else m,
       Busy(op, RemoveOutcome(if c.ok then report else Tainted(report), removedAt)))
    case RemoveOutcome(report, removedAt) =>
      Finish(if c.ok then m.(outcome := m.outcome - {op.key}) else m,
             op, if c.ok then report else Tainted(report), removedAt)
  }

  function HostStep(m: Maps, h: Host, c: HostChoice): (Maps, Host) {
    if h.Waiting? then (m, h)
    else if Opening(h.at) then OpenStep(m, h.op, h.at, c)
    else if Committing(h.at) then CommitStep(m, h.op, h.at, c)
    else CloseStep(m, h.op, h.at, c)
  }
}
