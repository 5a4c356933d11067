// The index bound needs its orphans: whatever the capacity, index faults in one delete let the index outgrow
// three entries per slot.
module FlowOrphans {
  import opened Prelude
  import opened FlowMaps
  import opened PacketPath
  import opened HostOperation
  import opened FlowSystem
  import opened FlowOwnership
  import opened FlowExclusion
  import opened FlowSlots
  import opened FlowSchedules
  import opened FlowCreatingDelete

  // ----- Schedules as runs -----

  function States(s: System, acts: seq<Action>): (r: seq<System>)
    requires Runs(s, acts)
    ensures |r| == |acts| + 1 && r[0] == s && r[|acts|] == Exec(s, acts)
    decreases |acts|
  {
    if acts == [] then [s] else [s] + States(Apply(s, acts[0]), acts[1..])
  }

  lemma {:induction false} StatesStep(s: System, acts: seq<Action>, i: nat)
    requires Runs(s, acts) && Proper(s, acts) && i < |acts|
    ensures StepAt(States(s, acts), i)
    decreases |acts|
  {
    var rest := States(Apply(s, acts[0]), acts[1..]);
    if i == 0 {
      assert Next(s, Apply(s, acts[0]));
    } else {
      StatesStep(Apply(s, acts[0]), acts[1..], i - 1);
      assert States(s, acts)[i] == rest[i - 1] && States(s, acts)[i + 1] == rest[i];
    }
  }

  lemma {:induction false} CapacityStays(s: System, acts: seq<Action>, i: nat)
    requires Runs(s, acts) && i <= |acts| && forall j :: 0 <= j < |acts| ==> !acts[j].Configure?
    ensures States(s, acts)[i].capacity == s.capacity
    decreases |acts|
  {
    if i > 0 { CapacityStays(Apply(s, acts[0]), acts[1..], i - 1); }
  }

  // ----- One new flow -----

  /** The packet, target and clock that create a flow of three unused tuples. */
  function Creation(n: nat): Choice {
    Choice(Packet(TupleKey(4, 6, Endpoint([], n), Endpoint([], n + 1)), true), 0, Some(Endpoint([], n + 2)), 0, true)
  }

  function CreatedFlow(n: nat): FlowState {
    NewFlow(Creation(n).pkt.tuple, Creation(n).target.value, 0)
  }

  /** No index entry has a source port this high. */
  predicate Clear(index: map<TupleKey, FlowKey>, n: nat) {
    forall t :: t in index ==> t.source.port < n
  }

  function NextKey(m: Maps): FlowKey { FlowKey(0, m.nextGeneration + 1) }

  lemma Begins(s: System, p: nat, n: nat) returns (acts: seq<Action>)
    requires p !in s.threads && Clear(s.m.index, n)
    ensures Runs(s, acts) && Plain(acts)
    ensures Exec(s, acts) == s.(threads := s.threads[p := Making(Creation(n).pkt, NextKey(s.m), CreatedFlow(n), Pop)],
                                m := s.m.(nextGeneration := s.m.nextGeneration + 1))
  {
    acts := Push(s, [], Spawn(p));
    acts := Push(s, acts, Run(p, Creation(n)));
    acts := Push(s, acts, Run(p, Creation(n)));
  }

  /** Nothing but packets. */
  predicate Plain(acts: seq<Action>) {
    forall i :: 0 <= i < |acts| ==> acts[i].Run? || acts[i].Spawn?
  }

  lemma Reserves(s: System, p: nat, n: nat, k: FlowKey) returns (acts: seq<Action>)
    requires p in s.threads && s.threads[p] == Making(Creation(n).pkt, k, CreatedFlow(n), Reserve)
    requires s.m.active < s.capacity && k !in s.m.states
    ensures Runs(s, acts) && Plain(acts)
    ensures Exec(s, acts) == s.(threads := s.threads[p := Making(Creation(n).pkt, k, CreatedFlow(n), InsertIndex(0))],
                                m := s.m.(active := s.m.active + 1, states := s.m.states[k := CreatedFlow(n)]))
  {
    acts := Push(s, [], Run(p, Creation(n)));
    acts := Push(s, acts, Run(p, Creation(n)));
    assert s.threads[p := Making(Creation(n).pkt, k, CreatedFlow(n), InsertState)]
             [p := Making(Creation(n).pkt, k, CreatedFlow(n), InsertIndex(0))]
        == s.threads[p := Making(Creation(n).pkt, k, CreatedFlow(n), InsertIndex(0))];
  }

  lemma OneEntry(s: System, p: nat, n: nat, k: FlowKey, i: nat) returns (acts: seq<Action>)
    requires i <= 2 && p in s.threads && s.threads[p] == Making(Creation(n).pkt, k, CreatedFlow(n), InsertIndex(i))
    requires TupleAt(CreatedFlow(n), i) !in s.m.index
    ensures Runs(s, acts) && Plain(acts)
    ensures Exec(s, acts) == s.(threads := s.threads[p := Making(Creation(n).pkt, k, CreatedFlow(n),
                                                                 if i < 2 then InsertIndex(i + 1) else InsertFlight)],
                                m := s.m.(index := s.m.index[TupleAt(CreatedFlow(n), i) := k]))
    ensures |Exec(s, acts).m.index| == |s.m.index| + 1
  {
    acts := Push(s, [], Run(p, Creation(n)));
  }

  lemma UnusedTuples(index: map<TupleKey, FlowKey>, n: nat)
    requires Clear(index, n)
    ensures var f := CreatedFlow(n);
            && f.original !in index && f.target !in index && f.reverse !in index
            && f.original != f.target && f.original != f.reverse && f.target != f.reverse
  {
  }

  lemma Indexes(s: System, p: nat, n: nat, k: FlowKey) returns (acts: seq<Action>)
    requires p in s.threads && s.threads[p] == Making(Creation(n).pkt, k, CreatedFlow(n), InsertIndex(0))
    requires Clear(s.m.index, n)
    ensures Runs(s, acts) && Plain(acts)
    ensures Exec(s, acts) == s.(threads := s.threads[p := Making(Creation(n).pkt, k, CreatedFlow(n), InsertFlight)],
                                m := s.m.(index := Indexed(s.m.index, k, CreatedFlow(n))))
    ensures |Exec(s, acts).m.index| == |s.m.index| + 3
  {
    UnusedTuples(s.m.index, n);
    acts := OneEntry(s, p, n, k, 0);
    var more := OneEntry(Exec(s, acts), p, n, k, 1);
    ExecAppend(s, acts, more);
    acts := acts + more;
    more := OneEntry(Exec(s, acts), p, n, k, 2);
    ExecAppend(s, acts, more);
    acts := acts + more;
  }

  lemma Activates(s: System, p: nat, n: nat, k: FlowKey) returns (acts: seq<Action>)
    requires p in s.threads && s.threads[p] == Making(Creation(n).pkt, k, CreatedFlow(n), InsertFlight)
    requires k in s.m.states && k !in s.m.inflight
    ensures Runs(s, acts) && Plain(acts)
    ensures Exec(s, acts) == s.(threads := s.threads[p := Resolve(Creation(n).pkt, k)],
                                m := s.m.(inflight := s.m.inflight[k := 0], settled := s.m.settled + {k},
                                          states := s.m.states[k := CreatedFlow(n).(lifecycle := Active)]))
  {
    acts := Push(s, [], Run(p, Creation(n)));
    acts := Push(s, acts, Run(p, Creation(n)));
  }

  // ----- Filling every slot -----

  /** Between deletes, j slots used by j fully indexed flows and nobody inside them. */
  ghost predicate Tame(s: System, j: nat) {
    && Excluded(s) && Balanced(s) && s.host.Waiting? && s.m.queue == [] && s.m.guard == map[]
    && s.m.active == j && |s.m.index| == 3 * j
    && (forall k :: k in s.m.inflight ==> s.m.inflight[k] == 0)
  }

  lemma ClearPort(index: map<TupleKey, FlowKey>) returns (n: nat)
    ensures Clear(index, n)
  {
    var ports := set t | t in index :: t.source.port;
    n := Above(ports);
    assert forall t :: t in index ==> t.source.port in ports;
  }

  lemma PlainKeeps(s: System, acts: seq<Action>)
    requires Excluded(s) && Balanced(s) && Runs(s, acts) && Plain(acts)
    ensures Excluded(Exec(s, acts)) && Balanced(Exec(s, acts)) && NoBegin(acts)
  {
    BackgroundKeeps(s, acts);
  }

  /** A thread at Reserve creates the whole flow. */
  lemma Finishes(s: System, p: nat, n: nat, k: FlowKey) returns (acts: seq<Action>)
    requires p in s.threads && s.threads[p] == Making(Creation(n).pkt, k, CreatedFlow(n), Reserve)
    requires s.m.active < s.capacity && k !in s.m.states && k !in s.m.inflight && Clear(s.m.index, n)
    ensures Runs(s, acts) && Plain(acts)
    ensures var s' := Exec(s, acts);
            && s'.host == s.host && s'.capacity == s.capacity && IsActive(s'.m, k) && |s'.m.index| == |s.m.index| + 3
            && s'.m.active == s.m.active + 1 && s'.m.queue == s.m.queue && s'.m.guard == s.m.guard
            && s'.m.inflight == s.m.inflight[k := 0]
  {
    acts := Reserves(s, p, n, k);
    var more := Indexes(Exec(s, acts), p, n, k);
    ExecAppend(s, acts, more);
    acts := acts + more;
    more := Activates(Exec(s, acts), p, n, k);
    ExecAppend(s, acts, more);
    acts := acts + more;
  }

  /** A new thread comes to reserve a slot when no release is queued. */
  lemma Arrives(s: System, p: nat, n: nat) returns (acts: seq<Action>)
    requires p !in s.threads && Clear(s.m.index, n) && s.m.queue == []
    ensures Runs(s, acts) && Plain(acts)
    ensures var pc := Making(Creation(n).pkt, NextKey(s.m), CreatedFlow(n), Reserve);
            Exec(s, acts) == s.(threads := s.threads[p := pc],
                                m := s.m.(nextGeneration := s.m.nextGeneration + 1))
  {
    acts := Begins(s, p, n);
    acts := Push(s, acts, Run(p, Creation(n)));
  }

  lemma CreateOne(s: System, j: nat) returns (acts: seq<Action>, k: FlowKey)
    requires Tame(s, j) && j < s.capacity
    ensures Runs(s, acts) && Plain(acts)
    ensures var s' := Exec(s, acts); Tame(s', j + 1) && s'.capacity == s.capacity && IsActive(s'.m, k)
  {
    var p := Above(s.threads.Keys);
    var n := ClearPort(s.m.index);
    k := NextKey(s.m);
    assert KeyOk(s.m, s.host, k);
    acts := Arrives(s, p, n);
    var more := Finishes(Exec(s, acts), p, n, k);
    ExecAppend(s, acts, more);
    acts := acts + more;
    PlainKeeps(s, acts);
    GrownTame(s, Exec(s, acts), j, k);
  }

  lemma GrownTame(s: System, s': System, j: nat, k: FlowKey)
    requires Tame(s, j) && Excluded(s') && Balanced(s') && s'.host == s.host
    requires s'.m.active == j + 1 && |s'.m.index| == 3 * j + 3 && s'.m.queue == [] && s'.m.guard == map[]
    requires s'.m.inflight == s.m.inflight[k := 0]
    ensures Tame(s', j + 1)
  {
  }

  lemma {:induction false} FillUp(s: System, j: nat) returns (acts: seq<Action>, k: FlowKey)
    requires Tame(s, j) && j < s.capacity
    ensures Runs(s, acts) && Plain(acts)
    ensures var s' := Exec(s, acts); Tame(s', s.capacity) && s'.capacity == s.capacity && IsActive(s'.m, k)
    decreases s.capacity - j
  {
    acts, k := CreateOne(s, j);
    if j + 1 < s.capacity {
      var more: seq<Action>;
      more, k := FillUp(Exec(s, acts), j + 1);
      ExecAppend(s, acts, more);
      acts := acts + more;
    }
  }

  // ----- A delete whose index cleanup fails -----

  lemma CleanupFails(s: System, op: DeleteOp, flow: FlowState) returns (acts: seq<Action>)
    requires s.host == Removing(op, flow)
    ensures Runs(s, acts) && HostOnly(acts)
    ensures var prog := Progress(true, true, 0, true, false, true, Some(flow.lastUsed));
            Exec(s, acts) == s.(m := s.m.(orphans := s.m.orphans + {op.key}), host := Busy(op, CheckIndex([], prog)))
  {
    acts := Push(s, [], HostFault);
    acts := Push(s, acts, HostFault);
    acts := Push(s, acts, HostFault);
    assert s.m.orphans + {op.key} + {op.key} + {op.key} == s.m.orphans + {op.key};
  }

  lemma LeavesFlight(s: System, op: DeleteOp, prog: Progress) returns (acts: seq<Action>)
    requires s.host == Busy(op, CheckIndex([], prog)) && prog.faulted
    ensures Runs(s, acts) && HostOnly(acts)
    ensures Exec(s, acts) == s.(m := s.m.(inflight := s.m.inflight - {op.key}), host := Busy(op, ReadPending(prog)))
  {
    acts := Push(s, [], HostOkay);
    acts := Push(s, acts, HostOkay);
  }

  lemma Publishes(s: System, op: DeleteOp, prog: Progress) returns (acts: seq<Action>)
    requires s.host == Busy(op, ReadPending(prog)) && prog.guarded && prog.stateDeleted && op.key in s.m.journal
    ensures Runs(s, acts) && HostOnly(acts)
    ensures Exec(s, acts) == s.(m := s.m.(queue := s.m.queue + [op.key]),
                                host := Busy(op, RemoveGuard(ReportOf(prog), prog.removedAt)))
  {
    acts := Push(s, [], HostOkay);
    acts := Push(s, acts, HostOkay);
  }

  lemma Withdraws(s: System, op: DeleteOp, r: Report, at: Option<nat>) returns (acts: seq<Action>)
    requires s.host == Busy(op, RemoveGuard(r, at))
    ensures Runs(s, acts) && HostOnly(acts)
    ensures Exec(s, acts) == s.(host := Waiting,
      m := s.m.(guard := s.m.guard - {op.key}, outcome := s.m.outcome - {op.key},
                finished := s.m.finished + [Finished(op, r, at)]))
  {
    acts := Push(s, [], HostOkay);
    acts := Push(s, acts, HostOkay);
  }

  /** The end of a delete with no entry removed. */
  lemma EndsPartial(s: System, op: DeleteOp, prog: Progress) returns (acts: seq<Action>)
    requires s.host == Busy(op, CheckIndex([], prog)) && prog.faulted && prog.guarded && prog.stateDeleted
    requires op.key in s.m.journal
    ensures Runs(s, acts) && HostOnly(acts)
    ensures var s' := Exec(s, acts);
            && s'.host.Waiting? && s'.threads == s.threads && s'.capacity == s.capacity && s'.m.index == s.m.index
            && s'.m.active == s.m.active && s'.m.queue == s.m.queue + [op.key] && s'.m.journal == s.m.journal
  {
    acts := LeavesFlight(s, op, prog);
    var more := Publishes(Exec(s, acts), op, prog);
    ExecAppend(s, acts, more);
    acts := acts + more;
    more := Withdraws(Exec(s, acts), op, ReportOf(prog), prog.removedAt);
    ExecAppend(s, acts, more);
    acts := acts + more;
  }

  /** The delete ends with its release published and all three entries left behind. */
  lemma DeleteFails(s: System, op: DeleteOp) returns (acts: seq<Action>)
    requires s.host == Busy(op, ReadInitial) && op.observed == 0
    requires op.key in s.m.states && op.key !in s.m.guard && InFlightZero(s.m, op.key)
    ensures Runs(s, acts) && HostOnly(acts)
    ensures var s' := Exec(s, acts);
            && s'.host.Waiting? && s'.threads == s.threads && s'.capacity == s.capacity && s'.m.index == s.m.index
            && s'.m.active == s.m.active && s'.m.queue == s.m.queue + [op.key] && op.key in s'.m.journal
  {
    var flow := s.m.states[op.key];
    acts := HostDeletes(s, op);
    var more := CleanupFails(Exec(s, acts), op, flow);
    ExecAppend(s, acts, more);
    acts := acts + more;
    more := EndsPartial(Exec(s, acts), op, Progress(true, true, 0, true, false, true, Some(flow.lastUsed)));
    ExecAppend(s, acts, more);
    acts := acts + more;
  }

  // ----- One more flow -----

  lemma Claims(s: System, p: nat, n: nat, k: FlowKey, released: FlowKey) returns (acts: seq<Action>)
    requires p in s.threads && s.threads[p] == Making(Creation(n).pkt, k, CreatedFlow(n), Pop)
    requires s.m.queue == [released] && released in s.m.journal && s.m.active > 0
    ensures Runs(s, acts) && Plain(acts)
    ensures Exec(s, acts) == s.(threads := s.threads[p := Making(Creation(n).pkt, k, CreatedFlow(n), Reserve)],
                                m := s.m.(queue := [], journal := s.m.journal - {released}, active := s.m.active - 1))
  {
    acts := Push(s, [], Run(p, Creation(n)));
    acts := Push(s, acts, Run(p, Creation(n)));
    acts := Push(s, acts, Run(p, Creation(n)));
  }

  /** The freed slot admits a new flow whose first entry no longer fits three per slot. */
  lemma OneTooMany(s: System, released: FlowKey) returns (acts: seq<Action>)
    requires Excluded(s) && s.m.queue == [released] && released in s.m.journal && 0 < s.m.active <= s.capacity
    ensures Runs(s, acts) && Plain(acts)
    ensures |Exec(s, acts).m.index| == |s.m.index| + 3
  {
    var p := Above(s.threads.Keys);
    var n := ClearPort(s.m.index);
    var k := NextKey(s.m);
    assert KeyOk(s.m, s.host, k);
    acts := Begins(s, p, n);
    var more := Claims(Exec(s, acts), p, n, k, released);
    ExecAppend(s, acts, more);
    acts := acts + more;
    more := Finishes(Exec(s, acts), p, n, k);
    ExecAppend(s, acts, more);
    acts := acts + more;
  }

  /** From the start of the failing delete to the entry too many. */
  lemma OverflowsAfter(s: System, op: DeleteOp) returns (acts: seq<Action>)
    requires Excluded(s) && Balanced(s) && s.host == Busy(op, ReadInitial) && op.observed == 0
    requires op.key in s.m.states && op.key !in s.m.guard && InFlightZero(s.m, op.key)
    requires s.m.queue == [] && 0 < s.m.active <= s.capacity
    ensures Runs(s, acts) && NoBegin(acts) && forall i :: 0 <= i < |acts| ==> !acts[i].Configure?
    ensures |Exec(s, acts).m.index| == |s.m.index| + 3
  {
    acts := DeleteFails(s, op);
    NoBeginIsProper(s, acts);
    ProperKeeps(s, acts);
    var more := OneTooMany(Exec(s, acts), op.key);
    ExecAppend(s, acts, more);
    acts := acts + more;
  }

  lemma Overflows(s: System, k: FlowKey) returns (acts: seq<Action>)
    requires Tame(s, s.capacity) && s.capacity > 0 && IsActive(s.m, k)
    ensures Proper(s, acts) && Runs(s, acts) && forall i :: 0 <= i < |acts| ==> !acts[i].Configure?
    ensures |Exec(s, acts).m.index| == 3 * s.capacity + 3
  {
    var op := DeleteOp(k, 0, 0);
    ActiveTargetable(s, k);
    BeginKeeps(s, op);
    var s1 := Apply(s, Begin(op));
    var rest := OverflowsAfter(s1, op);
    NoBeginIsProper(s1, rest);
    acts := [Begin(op)] + rest;
    assert acts[1..] == rest;
  }

  lemma ActiveTargetable(s: System, k: FlowKey)
    requires Owned(s) && IsActive(s.m, k)
    ensures Targetable(s, k)
  {
    assert KeyOk(s.m, s.host, k);
    forall p | p in s.threads ensures !Creates(s.threads[p], k) { assert ThreadOk(s.m, s.threads[p]); }
  }

  lemma StartTame(capacity: nat)
    ensures Tame(System(capacity, EmptyMaps, map[], Waiting), 0)
  {
    var s := System(capacity, EmptyMaps, map[], Waiting);
    var run := [s];
    assert IsRun(run);
    ExcludedAlways(run, 0);
    BalancedAlways(run, 0);
  }

  /** For every capacity some run under that capacity ends with more than three index entries per slot. */
  lemma OrphansExceedCapacity(capacity: nat) returns (run: seq<System>)
    requires capacity > 0
    ensures IsRun(run) && forall i :: 0 <= i < |run| ==> run[i].capacity == capacity
    ensures |run[|run| - 1].m.index| > 3 * capacity
  {
    var s := System(capacity, EmptyMaps, map[], Waiting);
    StartTame(capacity);
    var acts, k := FillUp(s, 0);
    NoBeginIsProper(s, acts);
    var more := Overflows(Exec(s, acts), k);
    ExecAppend(s, acts, more);
    ProperAppend(s, acts, more);
    acts := acts + more;
    run := States(s, acts);
    forall i | 0 <= i < |acts| ensures StepAt(run, i) { StatesStep(s, acts, i); }
    forall i | 0 <= i < |run| ensures run[i].capacity == capacity { CapacityStays(s, acts, i); }
  }

  lemma {:induction false} ProperAppend(s: System, a: seq<Action>, b: seq<Action>)
    requires Runs(s, a) && Proper(s, a) && Proper(Exec(s, a), b)
    ensures Proper(s, a + b)
    decreases |a|
  {
    if a == [] {
      assert a + b == b;
    } else {
      assert (a + b)[1..] == a[1..] + b;
      ProperAppend(Apply(s, a[0]), a[1..], b);
    }
  }
}
