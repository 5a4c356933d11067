// With no packets in flight and no map faults, the guarded delete is the test double's delete.
module BackendRefinement {
  import opened Prelude
  import opened FlowMaps
  import opened HostOperation
  import opened InMemoryBackend
  import FlowCreation

  /** No delete is under way and no packet is inside a flow. */
  ghost predicate Quiet(m: Maps) {
    && m.guard == map[] && m.outcome == map[]
    && (forall k :: k in m.inflight ==> m.inflight[k] == 0)
    && Tied(m.states, m.index)
  }

  /** The double agrees with the maps and has nothing pending. */
  predicate Mirrors(b: Memory, m: Maps) {
    b.states == m.states && b.index == m.index && b.pending == {} && !b.failPublication && !b.abortGuard
  }

  // ----- Where a fault-free delete stands -----

  predicate Matches(states: map<FlowKey, FlowState>, op: DeleteOp) {
    op.key in states && (op.observed == 0 || states[op.key].lastUsed == op.observed)
  }

  /** What the delete is to leave behind and to report. */
  datatype Goal = Goal(guarded: bool, states: map<FlowKey, FlowState>, index: map<TupleKey, FlowKey>, report: Report)

  function GoalOf(m0: Maps, op: DeleteOp): Goal {
    var rest := Without(m0.index, op.key);
    FewerEntries(m0.index, op.key);
    var deleted: nat := |m0.index| - |rest|;
    if op.key !in m0.states then
      Goal(false, m0.states, rest, Report(false, deleted, false, OtherGenerationIndexed(m0, op.key), false))
    else if !Matches(m0.states, op) then Goal(true, m0.states, m0.index, Mismatch)
    else Goal(true, m0.states - {op.key}, rest, Report(true, deleted, false, false, false))
  }

  /** Only this key's guard and outcome entries are out of place. */
  ghost predicate OnlyOwn(guard: map<FlowKey, nat>, outcome: map<FlowKey, Outcome>,
                          inflight: map<FlowKey, int>, k: FlowKey)
  {
    && (forall j :: j in guard ==> j == k)
    && (forall j :: j in outcome ==> j == k)
    && (forall j :: j in inflight ==> inflight[j] == 0)
  }

  /** How far the index cleanup has come. */
  ghost predicate Pruned(index0: map<TupleKey, FlowKey>, index: map<TupleKey, FlowKey>, k: FlowKey,
                         keys: seq<TupleKey>, deleted: nat)
  {
    && (forall t :: t in index ==> t in index0 && index[t] == index0[t])
    && (forall t :: t in index0 && index0[t] != k ==> t in index)
    && (forall t :: t in index && index[t] == k ==> t in keys)
    && |index| + deleted == |index0|
  }

  predicate Clean(goal: Goal, prog: Progress) {
    prog.guarded == goal.guarded && prog.stateDeleted == goal.guarded && !prog.partial && !prog.faulted
  }

  ghost predicate Pruning(goal: Goal, index0: map<TupleKey, FlowKey>, index: map<TupleKey, FlowKey>, k: FlowKey,
                          keys: seq<TupleKey>, prog: Progress)
  {
    && Clean(goal, prog)
    && goal.index == Without(index0, k)
    && goal.report == Report(prog.stateDeleted, Dropped(index0, k), false, prog.stale, false)
    && Pruned(index0, index, k, keys, prog.deleted)
  }

  function Dropped(index0: map<TupleKey, FlowKey>, k: FlowKey): nat {
    FewerEntries(index0, k);
    |index0| - |Without(index0, k)|
  }

  predicate Settling(goal: Goal, index: map<TupleKey, FlowKey>, prog: Progress) {
    Clean(goal, prog) && index == goal.index && ReportOf(prog) == goal.report
  }

  predicate OpeningOk(m0: Maps, m: Maps, k: FlowKey, at: Phase) {
    && m.states == m0.states && m.index == m0.index && k !in m.guard
    && (at.ForgetGuard? || at.ForgetOutcome? || at.Scan? ==> k !in m0.states)
    && (at.ReadOldGuard? || at.ClearOutcome? || at.InsertGuard? ==> k in m0.states)
    && (at.InsertGuard? ==> k !in m.outcome)
    && !at.DropOldGuard?
  }

  predicate CommittingOk(m0: Maps, m: Maps, op: DeleteOp, at: Phase) {
    && m.states == m0.states && m.index == m0.index && op.key in m0.states
    && (at.Drain? || at.ReadStable? || at.Commit? ==> op.key !in m.outcome)
    && (at.Journal? || at.RemoveState? ==> at.flow == m0.states[op.key] && Matches(m0.states, op))
    && (at.Drain? ==> at.tries < DRAIN_TRIES)
    && (at.Quiesce? ==> at.tries < DRAIN_TRIES)
    && !at.Unjournal?
  }

  ghost predicate ClosingOk(goal: Goal, index0: map<TupleKey, FlowKey>, m: Maps, k: FlowKey, at: Phase) {
    && m.states == goal.states
    && if at.CheckIndex? then Pruning(goal, index0, m.index, k, at.keys, at.prog)
       else if at.RemoveIndex? then
         Pruning(goal, index0, m.index, k, at.keys, at.prog) && at.keys != [] && Names(m, at.keys[0], k)
       else if at.RemoveFlight? || at.ReadPending? || at.Publish? then Settling(goal, m.index, at.prog)
       else if at.RemoveGuard? then m.index == goal.index && at.report == goal.report
       else at.RemoveOutcome? && m.index == goal.index && at.report == goal.report && k !in m.guard
  }

  /** Finished: guard and outcome are gone again and the report is on record. */
  ghost predicate Done(goal: Goal, m: Maps, op: DeleteOp) {
    && m.states == goal.states && m.index == goal.index
    && op.key !in m.guard && op.key !in m.outcome
    && m.finished != [] && m.finished[|m.finished| - 1].op == op
    && m.finished[|m.finished| - 1].report == goal.report
  }

  ghost predicate OnPath(goal: Goal, m0: Maps, m: Maps, op: DeleteOp, h: Host) {
    && OnlyOwn(m.guard, m.outcome, m.inflight, op.key)
    && if h.Waiting? then Done(goal, m, op)
       else
         && h.op == op
         && (!goal.guarded ==> op.key !in m.guard && op.key !in m.outcome)
         && if Opening(h.at) then OpeningOk(m0, m, op.key, h.at)
            else if Committing(h.at) then CommittingOk(m0, m, op, h.at)
            else ClosingOk(goal, m0.index, m, op.key, h.at)
  }

  // ----- A fault-free step stays on the path -----

  predicate Aside(goal: Goal, m: Maps, k: FlowKey) {
    !goal.guarded ==> k !in m.guard && k !in m.outcome
  }

  lemma AtCheck(goal: Goal, m0: Maps, m: Maps, op: DeleteOp, keys: seq<TupleKey>, prog: Progress)
    requires OnlyOwn(m.guard, m.outcome, m.inflight, op.key) && Aside(goal, m, op.key) && m.states == goal.states
    requires Pruning(goal, m0.index, m.index, op.key, keys, prog)
    ensures OnPath(goal, m0, m, op, Busy(op, CheckIndex(keys, prog)))
  {
  }

  lemma AtSettled(goal: Goal, m0: Maps, m: Maps, op: DeleteOp, at: Phase)
    requires OnlyOwn(m.guard, m.outcome, m.inflight, op.key) && Aside(goal, m, op.key) && m.states == goal.states
    requires (at.RemoveFlight? || at.ReadPending?) && Settling(goal, m.index, at.prog)
    ensures OnPath(goal, m0, m, op, Busy(op, at))
  {
  }

  lemma OpenOnPath(goal: Goal, m0: Maps, m: Maps, op: DeleteOp, at: Phase, c: HostChoice)
    requires OnPath(goal, m0, m, op, Busy(op, at)) && Opening(at) && !at.Scan? && c.ok
    requires goal.guarded == (op.key in m0.states)
    ensures var (m', h') := OpenStep(m, op, at, c); OnPath(goal, m0, m', op, h')
  {
  }

  lemma ScanOnPath(goal: Goal, m0: Maps, m: Maps, op: DeleteOp, c: HostChoice)
    requires OnPath(goal, m0, m, op, Busy(op, Scan)) && c.ok && goal == GoalOf(m0, op)
    ensures var (m', h') := OpenStep(m, op, Scan, c); OnPath(goal, m0, m', op, h')
  {
  }

  lemma DrainOnPath(goal: Goal, m0: Maps, m: Maps, op: DeleteOp, at: Phase, c: HostChoice)
    requires OnPath(goal, m0, m, op, Busy(op, at)) && (at.Drain? || at.ReadStable? || at.Commit?) && c.ok
    requires op.key in m0.states && goal.guarded
    ensures var (m', h') := CommitStep(m, op, at, c); OnPath(goal, m0, m', op, h')
  {
  }

  lemma CommitOnPath(goal: Goal, m0: Maps, m: Maps, op: DeleteOp, at: Phase, c: HostChoice)
    requires OnPath(goal, m0, m, op, Busy(op, at)) && (at.Quiesce? || at.ReadCommitted? || at.Journal?) && c.ok
    requires op.key in m0.states && goal.guarded
    requires !Matches(m0.states, op) ==> goal == Goal(true, m0.states, m0.index, Mismatch)
    ensures var (m', h') := CommitStep(m, op, at, c); OnPath(goal, m0, m', op, h')
  {
  }

  lemma PruningStarts(m0: Maps, op: DeleteOp, flow: FlowState, prog: Progress)
    requires Tied(m0.states, m0.index) && Matches(m0.states, op) && flow == m0.states[op.key]
    requires prog.guarded && prog.stateDeleted && !prog.partial && !prog.stale && !prog.faulted && prog.deleted == 0
    ensures Pruning(GoalOf(m0, op), m0.index, m0.index, op.key, [flow.original, flow.target, flow.reverse], prog)
  {
  }

  lemma RemoveStateStep(m: Maps, op: DeleteOp, flow: FlowState, c: HostChoice)
    requires op.key in m.states && c.ok
    ensures CommitStep(m, op, RemoveState(flow), c)
         == (m.(states := m.states - {op.key}),
             Busy(op, CheckIndex([flow.original, flow.target, flow.reverse],
                                 Progress(true, true, 0, false, false, false, Some(m.states[op.key].lastUsed)))))
  {
  }

  lemma RemoveStateOnPath(goal: Goal, m0: Maps, m: Maps, op: DeleteOp, flow: FlowState, c: HostChoice)
    requires OnPath(goal, m0, m, op, Busy(op, RemoveState(flow))) && c.ok
    requires Tied(m0.states, m0.index) && goal == GoalOf(m0, op)
    ensures var (m', h') := CommitStep(m, op, RemoveState(flow), c); OnPath(goal, m0, m', op, h')
  {
    var prog := Progress(true, true, 0, false, false, false, Some(m.states[op.key].lastUsed));
    RemoveStateStep(m, op, flow, c);
    PruningStarts(m0, op, flow, prog);
    AtCheck(goal, m0, m.(states := m.states - {op.key}), op, [flow.original, flow.target, flow.reverse], prog);
  }

  lemma AllPruned(index0: map<TupleKey, FlowKey>, index: map<TupleKey, FlowKey>, k: FlowKey, deleted: nat)
    requires Pruned(index0, index, k, [], deleted)
    ensures index == Without(index0, k) && deleted == Dropped(index0, k)
  {
    assert index == Without(index0, k);
  }

  lemma PruneSkip(index0: map<TupleKey, FlowKey>, index: map<TupleKey, FlowKey>, k: FlowKey,
                  keys: seq<TupleKey>, deleted: nat)
    requires Pruned(index0, index, k, keys, deleted) && keys != [] && (keys[0] in index ==> index[keys[0]] != k)
    ensures Pruned(index0, index, k, keys[1..], deleted)
  {
    assert keys == [keys[0]] + keys[1..];
  }

  lemma PruneOne(index0: map<TupleKey, FlowKey>, index: map<TupleKey, FlowKey>, k: FlowKey,
                 keys: seq<TupleKey>, deleted: nat)
    requires Pruned(index0, index, k, keys, deleted) && keys != [] && keys[0] in index && index[keys[0]] == k
    ensures Pruned(index0, index - {keys[0]}, k, keys[1..], deleted + 1)
  {
    assert keys == [keys[0]] + keys[1..];
    assert (index - {keys[0]}).Keys == index.Keys - {keys[0]};
  }

  lemma CheckedAll(goal: Goal, index0: map<TupleKey, FlowKey>, index: map<TupleKey, FlowKey>, k: FlowKey,
                   prog: Progress)
    requires Pruning(goal, index0, index, k, [], prog)
    ensures Settling(goal, index, prog)
  {
    AllPruned(index0, index, k, prog.deleted);
  }

  lemma CheckOnPath(goal: Goal, m0: Maps, m: Maps, op: DeleteOp, keys: seq<TupleKey>, prog: Progress, c: HostChoice)
    requires OnPath(goal, m0, m, op, Busy(op, CheckIndex(keys, prog))) && c.ok
    ensures var (m', h') := CloseStep(m, op, CheckIndex(keys, prog), c); OnPath(goal, m0, m', op, h')
  {
    var m' := CloseStep(m, op, CheckIndex(keys, prog), c).0;
    if keys == [] {
      CheckedAll(goal, m0.index, m.index, op.key, prog);
      AtSettled(goal, m0, m', op, RemoveFlight(prog));
    } else if !Names(m, keys[0], op.key) {
      PruneSkip(m0.index, m.index, op.key, keys, prog.deleted);
      AtCheck(goal, m0, m, op, keys[1..], prog);
    }
  }

  lemma PruningOne(goal: Goal, index0: map<TupleKey, FlowKey>, index: map<TupleKey, FlowKey>, k: FlowKey,
                   keys: seq<TupleKey>, prog: Progress)
    requires Pruning(goal, index0, index, k, keys, prog) && keys != [] && keys[0] in index && index[keys[0]] == k
    ensures Pruning(goal, index0, index - {keys[0]}, k, keys[1..], prog.(deleted := prog.deleted + 1))
  {
    PruneOne(index0, index, k, keys, prog.deleted);
  }

  lemma RemoveIndexStep(m: Maps, op: DeleteOp, keys: seq<TupleKey>, prog: Progress, c: HostChoice)
    requires keys != [] && keys[0] in m.index && c.ok
    ensures CloseStep(m, op, RemoveIndex(keys, prog), c)
         == (m.(index := m.index - {keys[0]}), Busy(op, CheckIndex(keys[1..], prog.(deleted := prog.deleted + 1))))
  {
  }

  lemma RemoveIndexOnPath(goal: Goal, m0: Maps, m: Maps, op: DeleteOp, keys: seq<TupleKey>, prog: Progress,
                          c: HostChoice)
    requires OnPath(goal, m0, m, op, Busy(op, RemoveIndex(keys, prog))) && c.ok
    ensures var (m', h') := CloseStep(m, op, RemoveIndex(keys, prog), c); OnPath(goal, m0, m', op, h')
  {
    PruningOne(goal, m0.index, m.index, op.key, keys, prog);
    RemoveIndexStep(m, op, keys, prog, c);
    AtCheck(goal, m0, m.(index := m.index - {keys[0]}), op, keys[1..], prog.(deleted := prog.deleted + 1));
  }

  lemma FlightOnPath(goal: Goal, m0: Maps, m: Maps, op: DeleteOp, prog: Progress, c: HostChoice)
    requires OnPath(goal, m0, m, op, Busy(op, RemoveFlight(prog))) && c.ok
    ensures var (m', h') := CloseStep(m, op, RemoveFlight(prog), c); OnPath(goal, m0, m', op, h')
  {
    var m' := m.(inflight := m.inflight - {op.key});
    OwnFlight(m.guard, m.outcome, m.inflight, op.key);
    AtSettled(goal, m0, m', op, ReadPending(prog));
    assert CloseStep(m, op, RemoveFlight(prog), c) == (m', Busy(op, ReadPending(prog)));
  }

  lemma OwnFlight(guard: map<FlowKey, nat>, outcome: map<FlowKey, Outcome>, inflight: map<FlowKey, int>, k: FlowKey)
    requires OnlyOwn(guard, outcome, inflight, k)
    ensures OnlyOwn(guard, outcome, inflight - {k}, k)
  {
  }

  lemma PublishOnPath(goal: Goal, m0: Maps, m: Maps, op: DeleteOp, at: Phase, c: HostChoice)
    requires OnPath(goal, m0, m, op, Busy(op, at)) && (at.ReadPending? || at.Publish?) && c.ok
    ensures var (m', h') := CloseStep(m, op, at, c); OnPath(goal, m0, m', op, h')
  {
  }

  lemma OwnGuard(guard: map<FlowKey, nat>, outcome: map<FlowKey, Outcome>, inflight: map<FlowKey, int>, k: FlowKey)
    requires OnlyOwn(guard, outcome, inflight, k)
    ensures OnlyOwn(guard - {k}, outcome, inflight, k)
  {
  }

  lemma AtOutcome(goal: Goal, m0: Maps, m: Maps, op: DeleteOp, report: Report, removedAt: Option<nat>)
    requires OnlyOwn(m.guard, m.outcome, m.inflight, op.key) && Aside(goal, m, op.key) && op.key !in m.guard
    requires m.states == goal.states && m.index == goal.index && report == goal.report
    ensures OnPath(goal, m0, m, op, Busy(op, RemoveOutcome(report, removedAt)))
  {
  }

  lemma GuardOnPath(goal: Goal, m0: Maps, m: Maps, op: DeleteOp, at: Phase, c: HostChoice)
    requires OnPath(goal, m0, m, op, Busy(op, at)) && at.RemoveGuard? && c.ok
    ensures var (m', h') := CloseStep(m, op, at, c); OnPath(goal, m0, m', op, h')
  {
    var m' := m.(guard := m.guard - {op.key});
    OwnGuard(m.guard, m.outcome, m.inflight, op.key);
    AtOutcome(goal, m0, m', op, at.report, at.removedAt);
    assert CloseStep(m, op, at, c) == (m', Busy(op, RemoveOutcome(at.report, at.removedAt)));
  }

  lemma OutcomeOnPath(goal: Goal, m0: Maps, m: Maps, op: DeleteOp, at: Phase, c: HostChoice)
    requires OnPath(goal, m0, m, op, Busy(op, at)) && at.RemoveOutcome? && c.ok
    ensures var (m', h') := CloseStep(m, op, at, c); OnPath(goal, m0, m', op, h')
  {
  }

  lemma GoalFacts(m0: Maps, op: DeleteOp)
    ensures GoalOf(m0, op).guarded == (op.key in m0.states)
    ensures op.key in m0.states && !Matches(m0.states, op) ==>
              GoalOf(m0, op) == Goal(true, m0.states, m0.index, Mismatch)
  {
  }

  lemma StepOnPath(m0: Maps, m: Maps, op: DeleteOp, h: Host, c: HostChoice)
    requires Tied(m0.states, m0.index) && OnPath(GoalOf(m0, op), m0, m, op, h) && c.ok
    ensures var (m', h') := HostStep(m, h, c); OnPath(GoalOf(m0, op), m0, m', op, h')
  {
    var goal := GoalOf(m0, op);
    GoalFacts(m0, op);
    if h.Busy? {
      var at := h.at;
      if at.Scan? { ScanOnPath(goal, m0, m, op, c); }
      else if Opening(at) { OpenOnPath(goal, m0, m, op, at, c); }
      else if at.RemoveState? { RemoveStateOnPath(goal, m0, m, op, at.flow, c); }
      else if at.Drain? || at.ReadStable? || at.Commit? { DrainOnPath(goal, m0, m, op, at, c); }
      else if Committing(at) { CommitOnPath(goal, m0, m, op, at, c); }
      else if at.CheckIndex? { CheckOnPath(goal, m0, m, op, at.keys, at.prog, c); }
      else if at.RemoveIndex? { RemoveIndexOnPath(goal, m0, m, op, at.keys, at.prog, c); }
      else if at.RemoveFlight? { FlightOnPath(goal, m0, m, op, at.prog, c); }
      else if at.ReadPending? || at.Publish? { PublishOnPath(goal, m0, m, op, at, c); }
      else if at.RemoveGuard? { GuardOnPath(goal, m0, m, op, at, c); }
      else { OutcomeOnPath(goal, m0, m, op, at, c); }
    }
  }

  lemma PathStarts(m0: Maps, op: DeleteOp)
    requires Quiet(m0)
    ensures OnPath(GoalOf(m0, op), m0, m0, op, Busy(op, ReadInitial))
  {
  }

  // ----- Every fault-free execution -----

  datatype Moment = Moment(m: Maps, h: Host)

  ghost predicate CleanStep(a: Moment, b: Moment) {
    exists c: HostChoice :: c.ok && HostStep(a.m, a.h, c) == (b.m, b.h)
  }

  ghost predicate CleanAt(tr: seq<Moment>, i: nat)
    requires i + 1 < |tr|
  {
    CleanStep(tr[i], tr[i + 1])
  }

  /** A delete from its first read to its end, no map operation failing. */
  ghost predicate CleanDelete(m0: Maps, op: DeleteOp, tr: seq<Moment>) {
    && tr != [] && tr[0] == Moment(m0, Busy(op, ReadInitial)) && tr[|tr| - 1].h.Waiting?
    && forall i {:trigger CleanAt(tr, i)} :: 0 <= i < |tr| - 1 ==> CleanAt(tr, i)
  }

  lemma CleanStepOnPath(m0: Maps, op: DeleteOp, a: Moment, b: Moment)
    requires Tied(m0.states, m0.index) && OnPath(GoalOf(m0, op), m0, a.m, op, a.h) && CleanStep(a, b)
    ensures OnPath(GoalOf(m0, op), m0, b.m, op, b.h)
  {
    var c: HostChoice :| c.ok && HostStep(a.m, a.h, c) == (b.m, b.h);
    StepOnPath(m0, a.m, op, a.h, c);
  }

  lemma TraceNext(m0: Maps, op: DeleteOp, tr: seq<Moment>, i: nat)
    requires Tied(m0.states, m0.index) && CleanDelete(m0, op, tr) && i + 1 < |tr|
    requires OnPath(GoalOf(m0, op), m0, tr[i].m, op, tr[i].h)
    ensures OnPath(GoalOf(m0, op), m0, tr[i + 1].m, op, tr[i + 1].h)
  {
    var a, b := tr[i], tr[i + 1];
    assert CleanAt(tr, i);
    CleanStepOnPath(m0, op, a, b);
  }

  lemma {:induction false} TraceOnPath(m0: Maps, op: DeleteOp, tr: seq<Moment>, i: nat)
    requires Quiet(m0) && CleanDelete(m0, op, tr) && i < |tr|
    ensures OnPath(GoalOf(m0, op), m0, tr[i].m, op, tr[i].h)
  {
    if i == 0 {
      PathStarts(m0, op);
    } else {
      TraceOnPath(m0, op, tr, i - 1);
      TraceNext(m0, op, tr, i - 1);
    }
  }

  // ----- The goal is the double's delete -----

  lemma AbsentGoal(states: map<FlowKey, FlowState>, m0: Maps, k: FlowKey)
    requires Tied(m0.states, m0.index) && k !in m0.states && states == m0.states
    ensures Without(m0.index, k) == m0.index
    ensures OtherGenerationIndexed(m0, k) <==> OtherGeneration(states, k)
  {
    assert forall t :: t in m0.index ==> m0.index[t] != k;
    if t :| t in m0.index && m0.index[t].flowId == k.flowId && m0.index[t].generation != k.generation {
      assert m0.index[t] in states;
    }
    if j :| j in states && j.flowId == k.flowId && j.generation != k.generation {
      var t :| t in m0.index && m0.index[t] == j;
    }
  }

  lemma GoalIsDeleted(m0: Maps, op: DeleteOp, b: Memory)
    requires Tied(m0.states, m0.index) && Mirrors(b, m0)
    ensures var (b', r) := Deleted(b, op.key, op.observed); var goal := GoalOf(m0, op);
            && r == goal.report && b'.states == goal.states && b'.index == goal.index
            && b'.pending == {} && !b'.failPublication && !b'.abortGuard
  {
    if op.key !in m0.states {
      AbsentGoal(b.states, m0, op.key);
    }
  }

  lemma WithoutTied(states: map<FlowKey, FlowState>, index: map<TupleKey, FlowKey>, k: FlowKey)
    requires Tied(states, index)
    ensures Tied(states - {k}, Without(index, k))
  {
    var rest := Without(index, k);
    forall j | j in states - {k} ensures exists t :: t in rest && rest[t] == j {
      var t :| t in index && index[t] == j;
      assert t in rest && rest[t] == j;
    }
  }

  lemma GoalTied(m0: Maps, op: DeleteOp)
    requires Tied(m0.states, m0.index)
    ensures Tied(GoalOf(m0, op).states, GoalOf(m0, op).index)
  {
    WithoutTied(m0.states, m0.index, op.key);
    if op.key !in m0.states { assert m0.states - {op.key} == m0.states; }
  }

  lemma DoneQuiet(goal: Goal, m0: Maps, m: Maps, op: DeleteOp)
    requires OnPath(goal, m0, m, op, Waiting) && Tied(goal.states, goal.index)
    ensures Quiet(m)
  {
    assert m.guard == map[] && m.outcome == map[];
  }

  function LastReport(m: Maps): Report {
    if m.finished == [] then Failed else m.finished[|m.finished| - 1].report
  }

  /** Every fault-free execution of the guarded delete reports and leaves exactly what the double does. */
  lemma DeleteRefines(m0: Maps, op: DeleteOp, tr: seq<Moment>, b: Memory)
    requires Quiet(m0) && CleanDelete(m0, op, tr) && Mirrors(b, m0)
    ensures Mirrors(Deleted(b, op.key, op.observed).0, tr[|tr| - 1].m)
    ensures LastReport(tr[|tr| - 1].m) == Deleted(b, op.key, op.observed).1
    ensures Quiet(tr[|tr| - 1].m)
  {
    TraceOnPath(m0, op, tr, |tr| - 1);
    GoalIsDeleted(m0, op, b);
    GoalTied(m0, op);
    DoneQuiet(GoalOf(m0, op), m0, tr[|tr| - 1].m, op);
  }

  // ----- Running it -----

  /** Collects the entries of one generation, as the host does from its map iteration. */
  method OwnedEntries(m: Maps, k: FlowKey) returns (order: seq<TupleKey>)
    ensures Enumerates(order, m, k)
  {
    order := [];
    var left := m.index.Keys;
    while left != {}
      invariant left <= m.index.Keys
      invariant forall t :: t in order ==> Names(m, t, k)
      invariant forall t :: t in m.index && m.index[t] == k ==> t in order || t in left
      decreases left
    {
      var t :| t in left;
      if m.index[t] == k { order := order + [t]; }
      left := left - {t};
    }
  }

  function Stage(h: Host): nat {
    if h.Waiting? then 0
    else
      match h.at
      case ReadInitial => 19 case ForgetGuard => 18 case ForgetOutcome => 17 case Scan => 16
      case ReadOldGuard => 18 case DropOldGuard => 17 case ClearOutcome => 16 case InsertGuard => 15
      case Drain(_) => 14 case ReadStable => 13 case Commit => 12 case Quiesce(_) => 11 case ReadCommitted => 10
      case Journal(_) => 9 case RemoveState(_) => 8 case Unjournal => 7
      case CheckIndex(_, _) => 6 case RemoveIndex(_, _) => 6
      case RemoveFlight(_) => 5 case ReadPending(_) => 4 case Publish(_) => 3
      case RemoveGuard(_, _) => 2 case RemoveOutcome(_, _) => 1
  }

  function Remaining(h: Host): int {
    if h.Waiting? then 0
    else if h.at.Drain? || h.at.Quiesce? then DRAIN_TRIES - h.at.tries
    else if h.at.CheckIndex? then 2 * |h.at.keys| + 1
    else if h.at.RemoveIndex? then 2 * |h.at.keys|
    else 0
  }

  /** delete_flow, run to its end on maps nobody else touches. */
  method DeleteFlow(m0: Maps, op: DeleteOp, now: nat) returns (m: Maps, report: Report)
    requires Quiet(m0)
    ensures Quiet(m)
    ensures forall b :: Mirrors(b, m0) ==>
              Mirrors(Deleted(b, op.key, op.observed).0, m) && report == Deleted(b, op.key, op.observed).1
  {
    m := m0;
    var h := Busy(op, ReadInitial);
    PathStarts(m0, op);
    while h.Busy?
      invariant OnPath(GoalOf(m0, op), m0, m, op, h)
      decreases Stage(h), Remaining(h)
    {
      var order := OwnedEntries(m, op.key);
      var c := HostChoice(now, true, order);
      StepOnPath(m0, m, op, h, c);
      StepEnds(GoalOf(m0, op), m0, m, op, h, c);
      var next := HostStep(m, h, c);
      m, h := next.0, next.1;
    }
    report := LastReport(m);
    GoalTied(m0, op);
    DoneQuiet(GoalOf(m0, op), m0, m, op);
    forall b | Mirrors(b, m0)
      ensures Mirrors(Deleted(b, op.key, op.observed).0, m) && report == Deleted(b, op.key, op.observed).1
    {
      GoalIsDeleted(m0, op, b);
    }
  }

  predicate Nearer(h: Host, h': Host) {
    0 <= Remaining(h) && (Stage(h') < Stage(h) || (Stage(h') == Stage(h) && 0 <= Remaining(h') < Remaining(h)))
  }

  lemma OpenEnds(m: Maps, op: DeleteOp, at: Phase, c: HostChoice)
    requires Opening(at) && c.ok && Enumerates(c.order, m, op.key)
    ensures Nearer(Busy(op, at), OpenStep(m, op, at, c).1)
  {
  }

  lemma CommitEnds(m: Maps, op: DeleteOp, at: Phase, c: HostChoice)
    requires Committing(at) && c.ok && !at.Unjournal?
    requires (at.Drain? ==> at.tries < DRAIN_TRIES) && (at.Quiesce? ==> at.tries < DRAIN_TRIES)
    ensures Nearer(Busy(op, at), CommitStep(m, op, at, c).1)
  {
  }

  lemma CloseEnds(m: Maps, op: DeleteOp, at: Phase, c: HostChoice)
    requires !Opening(at) && !Committing(at) && c.ok && (at.RemoveIndex? ==> at.keys != [])
    ensures Nearer(Busy(op, at), CloseStep(m, op, at, c).1)
  {
  }

  lemma StepEnds(goal: Goal, m0: Maps, m: Maps, op: DeleteOp, h: Host, c: HostChoice)
    requires OnPath(goal, m0, m, op, h) && h.Busy? && c.ok && Enumerates(c.order, m, op.key)
    ensures Nearer(h, HostStep(m, h, c).1)
  {
    if Opening(h.at) { OpenEnds(m, op, h.at, c); }
    else if Committing(h.at) { CommitEnds(m, op, h.at, c); }
    else { CloseEnds(m, op, h.at, c); }
  }

  // ----- Sequences of insertions and deletes -----

  datatype Op = Insert(key: FlowKey, flow: FlowState) | Delete(op: DeleteOp)

  /** A fault-free creation that ends with the given ACTIVE state, or a fault-free delete. */
  ghost predicate RealStep(m: Maps, o: Op, m': Maps, r: Option<Report>) {
    match o
    case Insert(k, f) =>
      && f.lifecycle == Active && r == None
      && exists tr: seq<FlowCreation.Moment> ::
           FlowCreation.CleanCreation(m, k, f.(lifecycle := Creating), tr) && tr[|tr| - 1].m == m'
    case Delete(op) =>
      && r == Some(LastReport(m'))
      && exists tr: seq<Moment> :: CleanDelete(m, op, tr) && tr[|tr| - 1].m == m'
  }

  function DoubleStep(b: Memory, o: Op): (Memory, Option<Report>) {
    match o
    case Insert(k, f) => (Inserted(b, k, f), None)
    case Delete(op) => (Deleted(b, op.key, op.observed).0, Some(Deleted(b, op.key, op.observed).1))
  }

  lemma StepRefines(m: Maps, o: Op, m': Maps, r: Option<Report>, b: Memory)
    requires Quiet(m) && Mirrors(b, m) && RealStep(m, o, m', r)
    ensures Quiet(m') && Mirrors(DoubleStep(b, o).0, m') && r == DoubleStep(b, o).1
  {
    if o.Insert? {
      var f := o.flow.(lifecycle := Creating);
      var tr: seq<FlowCreation.Moment> :| FlowCreation.CleanCreation(m, o.key, f, tr) && tr[|tr| - 1].m == m';
      FlowCreation.CreationEffect(m, o.key, f, tr);
      IndexedTied(m.states, m.index, o.key, o.flow);
    } else {
      var tr: seq<Moment> :| CleanDelete(m, o.op, tr) && tr[|tr| - 1].m == m';
      DeleteRefines(m, o.op, tr, b);
    }
  }

  function DoubleRun(b: Memory, ops: seq<Op>): (Memory, seq<Option<Report>>) {
    if ops == [] then (b, [])
    else
      var (b1, rs) := DoubleRun(b, ops[..|ops| - 1]);
      var (b2, r) := DoubleStep(b1, ops[|ops| - 1]);
      (b2, rs + [r])
  }

  ghost predicate RealAt(ops: seq<Op>, ms: seq<Maps>, rs: seq<Option<Report>>, i: nat)
    requires |ms| == |ops| + 1 && |rs| == |ops| && i < |ops|
  {
    RealStep(ms[i], ops[i], ms[i + 1], rs[i])
  }

  ghost predicate RealRun(ops: seq<Op>, ms: seq<Maps>, rs: seq<Option<Report>>) {
    && |ms| == |ops| + 1 && |rs| == |ops|
    && forall i {:trigger RealAt(ops, ms, rs, i)} :: 0 <= i < |ops| ==> RealAt(ops, ms, rs, i)
  }

  /** On every sequence of creations and deletes the reports, the states and the indexes are the double's. */
  lemma {:induction false} SequenceRefines(ops: seq<Op>, ms: seq<Maps>, rs: seq<Option<Report>>, b: Memory)
    requires RealRun(ops, ms, rs) && Quiet(ms[0]) && Mirrors(b, ms[0])
    ensures rs == DoubleRun(b, ops).1
    ensures DoubleRun(b, ops).0.states == ms[|ops|].states && DoubleRun(b, ops).0.index == ms[|ops|].index
    ensures Quiet(ms[|ops|]) && Mirrors(DoubleRun(b, ops).0, ms[|ops|])
  {
    if ops != [] {
      var n := |ops| - 1;
      var ops', ms', rs' := ops[..n], ms[..n + 1], rs[..n];
      forall i | 0 <= i < n ensures RealAt(ops', ms', rs', i) {
        assert RealAt(ops, ms, rs, i);
      }
      SequenceRefines(ops', ms', rs', b);
      assert RealAt(ops, ms, rs, n);
      StepRefines(ms[n], ops[n], ms[n + 1], rs[n], DoubleRun(b, ops[..n]).0);
      assert rs == rs[..n] + [rs[n]];
    }
  }
}
