// Schedules: sequences of actions from a given state, and the pieces that witnesses are built from.
module FlowSchedules {
  import opened Prelude
  import opened FlowMaps
  import opened PacketPath
  import opened HostOperation
  import opened FlowSystem
  import opened FlowExclusion
  import opened FlowSlots

  /** Every action of the schedule is enabled when its turn comes. */
  predicate Runs(s: System, acts: seq<Action>)
    decreases |acts|
  {
    acts == [] || (Enabled(s, acts[0]) && Runs(Apply(s, acts[0]), acts[1..]))
  }

  function Exec(s: System, acts: seq<Action>): System
    requires Runs(s, acts)
    decreases |acts|
  {
    if acts == [] then s else Exec(Apply(s, acts[0]), acts[1..])
  }

  lemma {:induction false} ExecAppend(s: System, a: seq<Action>, b: seq<Action>)
    requires Runs(s, a) && Runs(Exec(s, a), b)
    ensures Runs(s, a + b) && Exec(s, a + b) == Exec(Exec(s, a), b)
    decreases |a|
  {
    if a == [] {
      assert a + b == b;
    } else {
      assert (a + b)[1..] == a[1..] + b;
      ExecAppend(Apply(s, a[0]), a[1..], b);
    }
  }

  /** No delete is started. */
  predicate NoBegin(acts: seq<Action>) {
    forall i :: 0 <= i < |acts| ==> !acts[i].Begin?
  }

  lemma Push(s: System, acts: seq<Action>, a: Action) returns (more: seq<Action>)
    requires Runs(s, acts) && Enabled(Exec(s, acts), a)
    ensures more == acts + [a]
    ensures Runs(s, more) && Exec(s, more) == Apply(Exec(s, acts), a)
  {
    more := acts + [a];
    var mid := Exec(s, acts);
    assert Runs(Apply(mid, a), [a][1..]);
    assert Runs(mid, [a]) && Exec(mid, [a]) == Apply(mid, a);
    ExecAppend(s, acts, [a]);
  }

  /** Every delete the schedule starts names a targetable generation. */
  predicate Proper(s: System, acts: seq<Action>)
    decreases |acts|
  {
    acts == [] || (Enabled(s, acts[0]) && Targeted(s, acts[0]) && Proper(Apply(s, acts[0]), acts[1..]))
  }

  lemma {:induction false} NoBeginIsProper(s: System, acts: seq<Action>)
    requires Runs(s, acts) && NoBegin(acts)
    ensures Proper(s, acts)
    decreases |acts|
  {
    if acts != [] { NoBeginIsProper(Apply(s, acts[0]), acts[1..]); }
  }

  /** The invariants hold along every proper schedule. */
  lemma {:induction false} ProperKeeps(s: System, acts: seq<Action>)
    requires Excluded(s) && Balanced(s) && Proper(s, acts)
    ensures Runs(s, acts) && Excluded(Exec(s, acts)) && Balanced(Exec(s, acts))
    decreases |acts|
  {
    if acts != [] {
      var s' := Apply(s, acts[0]);
      assert Next(s, s');
      StepKeepsExcluded(s, s');
      StepKeepsSlots(s, s');
      ProperKeeps(s', acts[1..]);
    }
  }

  /** Packets and configuration, but no host step. */
  predicate Background(acts: seq<Action>) {
    forall i :: 0 <= i < |acts| ==> acts[i].Run? || acts[i].Spawn? || acts[i].Configure?
  }

  lemma {:induction false} BackgroundKeeps(s: System, acts: seq<Action>)
    requires Excluded(s) && Balanced(s) && Runs(s, acts) && Background(acts)
    ensures Excluded(Exec(s, acts)) && Balanced(Exec(s, acts)) && Exec(s, acts).host == s.host
    decreases |acts|
  {
    if acts != [] {
      var s' := Apply(s, acts[0]);
      assert Next(s, s');
      StepKeepsExcluded(s, s');
      StepKeepsSlots(s, s');
      BackgroundKeeps(s', acts[1..]);
    }
  }

  // ----- Starting a delete early changes nothing for the packets -----

  function Named(m: Maps, k: FlowKey): Maps {
    m.(settled := m.settled + {k})
  }

  lemma MakeIgnoresNamed(capacity: nat, m: Maps, pkt: Packet, key: FlowKey, f: FlowState, st: Stage, c: Choice,
                         k: FlowKey)
    ensures var (m', pc') := MakeStep(capacity, m, pkt, key, f, st, c);
            MakeStep(capacity, Named(m, k), pkt, key, f, st, c) == (Named(m', k), pc')
  {
    assert m.settled + {k} + {key} == m.settled + {key} + {k};
  }

  lemma GuardIgnoresNamed(m: Maps, key: FlowKey, g: Guard, c: Choice, k: FlowKey)
    ensures var (m', v) := GuardStep(m, key, g, c); GuardStep(Named(m, k), key, g, c) == (Named(m', k), v)
  {
  }

  lemma InsideIgnoresNamed(m: Maps, pkt: Packet, key: FlowKey, at: Spot, c: Choice, k: FlowKey)
    ensures var (m', pc') := InsideStep(m, pkt, key, at, c);
            InsideStep(Named(m, k), pkt, key, at, c) == (Named(m', k), pc')
  {
    if at.First? || at.Second? { GuardIgnoresNamed(m, key, at.g, c, k); }
  }

  lemma ThreadIgnoresNamed(capacity: nat, m: Maps, pc: Pc, c: Choice, k: FlowKey)
    ensures var (m', pc') := ThreadStep(capacity, m, pc, c);
            ThreadStep(capacity, Named(m, k), pc, c) == (Named(m', k), pc')
  {
    if pc.Making? { MakeIgnoresNamed(capacity, m, pc.pkt, pc.key, pc.flow, pc.stage, c, k); }
    else if pc.Inside? { InsideIgnoresNamed(m, pc.pkt, pc.key, pc.at, c, k); }
  }

  lemma BeginCommutesOnce(s: System, op: DeleteOp, a: Action)
    requires s.host.Waiting? && Enabled(s, a) && (a.Run? || a.Spawn? || a.Configure?)
    ensures Enabled(Apply(s, Begin(op)), a)
    ensures Apply(Apply(s, Begin(op)), a) == Apply(Apply(s, a), Begin(op))
  {
    if a.Run? { ThreadIgnoresNamed(s.capacity, s.m, s.threads[a.p], a.c, op.key); }
  }

  lemma {:induction false} BeginCommutes(s: System, op: DeleteOp, acts: seq<Action>)
    requires s.host.Waiting? && Runs(s, acts) && Background(acts)
    ensures Exec(s, acts).host.Waiting?
    ensures Runs(Apply(s, Begin(op)), acts)
    ensures Exec(Apply(s, Begin(op)), acts) == Apply(Exec(s, acts), Begin(op))
    decreases |acts|
  {
    if acts != [] {
      BeginCommutesOnce(s, op, acts[0]);
      BeginCommutes(Apply(s, acts[0]), op, acts[1..]);
    }
  }

  // ----- Pieces of a fault-free delete -----

  const HostOkay := HostRun(HostChoice(0, true, []))
  const HostFault := HostRun(HostChoice(0, false, []))

  predicate HostOnly(acts: seq<Action>) {
    forall i :: 0 <= i < |acts| ==> acts[i].HostRun?
  }

  lemma HostGuards(s: System, op: DeleteOp) returns (acts: seq<Action>)
    requires s.host == Busy(op, ReadInitial) && op.key in s.m.states && op.key !in s.m.guard
    ensures Runs(s, acts) && HostOnly(acts)
    ensures Exec(s, acts) == s.(host := Busy(op, Drain(0)),
                                m := s.m.(guard := s.m.guard[op.key := op.deadline], outcome := s.m.outcome - {op.key}))
  {
    acts := Push(s, [], HostOkay);
    acts := Push(s, acts, HostOkay);
    acts := Push(s, acts, HostOkay);
    acts := Push(s, acts, HostOkay);
  }

  lemma HostDrains(s: System, op: DeleteOp) returns (acts: seq<Action>)
    requires s.host == Busy(op, Drain(0)) && op.key in s.m.states && InFlightZero(s.m, op.key)
    ensures Runs(s, acts) && HostOnly(acts)
    ensures Exec(s, acts) == s.(host := Busy(op, Commit))
  {
    acts := Push(s, [], HostOkay);
    acts := Push(s, acts, HostOkay);
  }

  lemma HostCommits(s: System, op: DeleteOp) returns (acts: seq<Action>)
    requires s.host == Busy(op, Commit) && op.key !in s.m.outcome && InFlightZero(s.m, op.key)
    ensures Runs(s, acts) && HostOnly(acts)
    ensures Exec(s, acts) == s.(host := Busy(op, ReadCommitted), m := s.m.(outcome := s.m.outcome[op.key := Committed]))
  {
    acts := Push(s, [], HostOkay);
    acts := Push(s, acts, HostOkay);
  }

  /** Where a delete stands once it has removed the state of flow. */
  function Removing(op: DeleteOp, flow: FlowState): Host {
    Busy(op, CheckIndex([flow.original, flow.target, flow.reverse],
                        Progress(true, true, 0, false, false, false, Some(flow.lastUsed))))
  }

  lemma HostTakesState(s: System, op: DeleteOp) returns (acts: seq<Action>)
    requires s.host == Busy(op, ReadCommitted) && op.key in s.m.states && op.observed == 0
    ensures Runs(s, acts) && HostOnly(acts)
    ensures Exec(s, acts) == s.(host := Removing(op, s.m.states[op.key]),
                                m := s.m.(states := s.m.states - {op.key}, journal := s.m.journal + {op.key}))
  {
    acts := Push(s, [], HostOkay);
    acts := Push(s, acts, HostOkay);
    acts := Push(s, acts, HostOkay);
  }

  /** A started delete without observation takes the state when nobody is inside the flow. */
  lemma HostDeletes(s: System, op: DeleteOp) returns (acts: seq<Action>)
    requires s.host == Busy(op, ReadInitial) && op.observed == 0
    requires op.key in s.m.states && op.key !in s.m.guard && InFlightZero(s.m, op.key)
    ensures Runs(s, acts) && HostOnly(acts)
    ensures Exec(s, acts) == s.(host := Removing(op, s.m.states[op.key]),
      m := s.m.(guard := s.m.guard[op.key := op.deadline], outcome := (s.m.outcome - {op.key})[op.key := Committed],
                states := s.m.states - {op.key}, journal := s.m.journal + {op.key}))
  {
    acts := HostGuards(s, op);
    var more := HostDrains(Exec(s, acts), op);
    ExecAppend(s, acts, more);
    acts := acts + more;
    more := HostCommits(Exec(s, acts), op);
    ExecAppend(s, acts, more);
    acts := acts + more;
    more := HostTakesState(Exec(s, acts), op);
    ExecAppend(s, acts, more);
    acts := acts + more;
  }
}
