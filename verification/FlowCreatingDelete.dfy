// Which generations a delete may name. Started against a generation that a creator holds or has yet
// to allocate, both the creator's rollback and the release journal give back its slot.
module FlowCreatingDelete {
  import opened Prelude
  import opened FlowMaps
  import opened PacketPath
  import opened FlowSystem
  import opened FlowOwnership
  import opened ThreadCounts
  import opened FlowExclusion
  import opened FlowSlots
  import opened FlowSchedules

  const SomePacket := Packet(TupleKey(0, 0, Endpoint([], 0), Endpoint([], 0)), false)

  /** A creator's step that meets a map fault, and one that does not. */
  function Fail(p: nat): Action { Run(p, Choice(SomePacket, 0, None, 0, false)) }

  function Succeed(p: nat): Action { Run(p, Choice(SomePacket, 0, None, 0, true)) }

  // ----- The rollback -----

  ghost predicate SameSlots(s: System, s': System) {
    Owing(s'.m) == Owing(s.m) && s'.m.active == s.m.active && s'.m.giveUps == s.m.giveUps
  }

  /** What the rollback must not disturb: the slots and the other threads. */
  ghost predicate OnlyThread(s: System, s': System, p: nat, pc': Pc) {
    SameSlots(s, s') && s'.threads == s.threads[p := pc'] && s'.m.states == s.m.states
  }

  lemma UndoOneIndex(s: System, p: nat) returns (acts: seq<Action>)
    requires p in s.threads && s.threads[p].Making? && s.threads[p].stage.UndoCheck?
    ensures Runs(s, acts) && NoBegin(acts)
    ensures var pc := s.threads[p];
            OnlyThread(s, Exec(s, acts), p, AfterUndo(pc.pkt, pc.key, pc.flow, pc.stage.n, pc.stage.retry))
  {
    var pc := s.threads[p];
    acts := Push(s, [], Fail(p));
    if Names(s.m, TupleAt(pc.flow, pc.stage.n), pc.key) {
      acts := Push(s, acts, Fail(p));
    }
  }

  lemma UndoTail(s: System, p: nat) returns (acts: seq<Action>)
    requires p in s.threads && s.threads[p].Making? && (s.threads[p].stage.UndoFlight? || s.threads[p].stage.UndoState?)
    requires s.threads[p].key !in s.m.states
    ensures Runs(s, acts) && NoBegin(acts)
    ensures OnlyThread(s, Exec(s, acts), p, GiveBack(s.threads[p].pkt, s.threads[p].stage.retry))
  {
    acts := Push(s, [], Fail(p));
    if s.threads[p].stage.UndoFlight? {
      acts := Push(s, acts, Fail(p));
    }
  }

  /** The rollback walks back to the point where the creator returns its slot. */
  lemma {:induction false} CreatorUndoes(s: System, p: nat, n: nat) returns (acts: seq<Action>)
    requires p in s.threads && s.threads[p].Making? && s.threads[p].stage.UndoCheck? && s.threads[p].stage.n == n <= 2
    requires s.threads[p].key !in s.m.states
    ensures Runs(s, acts) && NoBegin(acts)
    ensures OnlyThread(s, Exec(s, acts), p, GiveBack(s.threads[p].pkt, s.threads[p].stage.retry))
    decreases 3 - n
  {
    acts := UndoOneIndex(s, p);
    var mid := Exec(s, acts);
    var rest: seq<Action>;
    if n < 2 {
      rest := CreatorUndoes(mid, p, n + 1);
    } else {
      rest := UndoTail(mid, p);
    }
    ExecAppend(s, acts, rest);
    acts := acts + rest;
  }

  /** The creator has inserted its state and has neither activated nor removed it. */
  predicate HoldsState(pc: Pc) {
    pc.Making? && !BeforeState(pc.stage)
  }

  predicate Undoing(st: Stage) {
    st.UndoCheck? || st.UndoDelete? || st.UndoFlight? || st.UndoState?
  }

  lemma CreatorTurns(s: System, p: nat) returns (acts: seq<Action>)
    requires p in s.threads && HoldsState(s.threads[p]) && s.threads[p].key !in s.m.states
    requires !Undoing(s.threads[p].stage)
    ensures Runs(s, acts) && NoBegin(acts)
    ensures exists retry :: var pc := s.threads[p];
              OnlyThread(s, Exec(s, acts), p, Making(pc.pkt, pc.key, pc.flow, UndoCheck(0, retry)))
  {
    acts := Push(s, [], Fail(p));
    var pc, pc' := s.threads[p], Exec(s, acts).threads[p];
    assert OnlyThread(s, Exec(s, acts), p, Making(pc.pkt, pc.key, pc.flow, UndoCheck(0, pc'.stage.retry)));
  }

  lemma UndoOneDelete(s: System, p: nat) returns (acts: seq<Action>)
    requires p in s.threads && s.threads[p].Making? && s.threads[p].stage.UndoDelete?
    ensures Runs(s, acts) && NoBegin(acts)
    ensures var pc := s.threads[p];
            OnlyThread(s, Exec(s, acts), p, AfterUndo(pc.pkt, pc.key, pc.flow, pc.stage.n, pc.stage.retry))
  {
    acts := Push(s, [], Fail(p));
  }

  /** Once its state is gone, a creator at any point comes to give back its slot. */
  lemma CreatorFails(s: System, p: nat) returns (acts: seq<Action>)
    requires p in s.threads && HoldsState(s.threads[p]) && s.threads[p].key !in s.m.states
    requires s.threads[p].stage.UndoCheck? || s.threads[p].stage.UndoDelete? ==> s.threads[p].stage.n <= 2
    ensures Runs(s, acts) && NoBegin(acts)
    ensures exists retry :: OnlyThread(s, Exec(s, acts), p, GiveBack(s.threads[p].pkt, retry))
  {
    var st := s.threads[p].stage;
    acts := [];
    if st.UndoDelete? { acts := UndoOneDelete(s, p); }
    else if !Undoing(st) { acts := CreatorTurns(s, p); }
    var mid := Exec(s, acts);
    var st' := mid.threads[p].stage;
    var rest: seq<Action>;
    if st'.UndoCheck? { rest := CreatorUndoes(mid, p, st'.n); } else { rest := UndoTail(mid, p); }
    ExecAppend(s, acts, rest);
    acts := acts + rest;
    assert OnlyThread(s, Exec(s, acts), p, GiveBack(s.threads[p].pkt, st'.retry));
  }

  // ----- A creator that holds the state -----

  lemma DeletingACreatingFlow(s: System, p: nat, deadline: nat) returns (acts: seq<Action>)
    requires Excluded(s) && Balanced(s) && s.host.Waiting? && p in s.threads && HoldsState(s.threads[p])
    ensures var s1 := Apply(s, Begin(DeleteOp(s.threads[p].key, 0, deadline)));
            Runs(s1, acts) && NoBegin(acts) && !Balanced(Exec(s1, acts))
  {
    var pc := s.threads[p];
    var op := DeleteOp(pc.key, 0, deadline);
    assert ThreadOk(s.m, pc);
    UnsettledUncounted(s, pc.key);
    var s1 := Apply(s, Begin(op));
    acts := HostDeletes(s1, op);
    var mid := Exec(s1, acts);
    assert Owing(mid.m) == Owing(s.m);
    var more := CreatorFails(mid, p);
    ExecAppend(s1, acts, more);
    acts := acts + more;
    MembersAfter(s.threads, p, Exec(s1, acts).threads[p], SlotHolder);
  }

  // ----- A creator before its state insertion -----

  function Rank(st: Stage): nat {
    if st.Pop? then 4 else if st.Claim? then 3 else if st.ReleaseClaim? then 2 else if st.Reserve? then 1 else 0
  }

  lemma Advances(capacity: nat, m: Maps, pkt: Packet, k: FlowKey, f: FlowState, st: Stage, c: Choice)
    requires BeforeState(st) && c.ok
    requires if st.InsertState? then k !in m.states else m.active < capacity
    ensures var (m', pc') := MakeStep(capacity, m, pkt, k, f, st, c);
            && Creates(pc', k)
            && (if st.InsertState? then HoldsState(pc') else BeforeState(pc'.stage) && Rank(pc'.stage) < Rank(st))
            && (!st.Reserve? ==> m'.active <= m.active)
            && (st.Reserve? ==> pc'.stage.InsertState?)
  {
  }

  /** With room below the capacity the creator comes to insert its state. */
  lemma {:induction false} CreatorInserts(s: System, p: nat, k: FlowKey) returns (acts: seq<Action>)
    requires Excluded(s) && Balanced(s) && p in s.threads && Creates(s.threads[p], k) && BeforeState(s.threads[p].stage)
    requires !s.threads[p].stage.InsertState? ==> s.m.active < s.capacity
    ensures Runs(s, acts) && Background(acts)
    ensures p in Exec(s, acts).threads && Creates(Exec(s, acts).threads[p], k) && HoldsState(Exec(s, acts).threads[p])
    decreases Rank(s.threads[p].stage)
  {
    var pc := s.threads[p];
    assert ThreadOk(s.m, pc);
    acts := Push(s, [], Succeed(p));
    Advances(s.capacity, s.m, pc.pkt, k, pc.flow, pc.stage, Succeed(p).c);
    if !pc.stage.InsertState? {
      var mid := Exec(s, acts);
      BackgroundKeeps(s, acts);
      var rest := CreatorInserts(mid, p, k);
      ExecAppend(s, acts, rest);
      acts := acts + rest;
    }
  }

  /** The configuration is raised if need be. */
  lemma CreatorProceeds(s: System, p: nat) returns (acts: seq<Action>)
    requires Excluded(s) && Balanced(s) && p in s.threads && s.threads[p].Making?
    ensures Runs(s, acts) && Background(acts)
    ensures p in Exec(s, acts).threads
    ensures HoldsState(Exec(s, acts).threads[p]) && Exec(s, acts).threads[p].key == s.threads[p].key
  {
    acts := [];
    if BeforeState(s.threads[p].stage) {
      acts := Push(s, [], Configure(s.m.active + 1));
      BackgroundKeeps(s, acts);
      var rest := CreatorInserts(Exec(s, acts), p, s.threads[p].key);
      ExecAppend(s, acts, rest);
      acts := acts + rest;
    }
  }

  // ----- A generation not yet allocated -----

  lemma {:induction false} Above(xs: set<nat>) returns (n: nat)
    ensures forall x :: x in xs ==> x < n
  {
    n := 0;
    if xs != {} {
      var x :| x in xs;
      n := Above(xs - {x});
      assert forall y :: y in xs ==> y == x || y in xs - {x};
      if n <= x { n := x + 1; }
    }
  }

  lemma UnusedTuple(index: map<TupleKey, FlowKey>) returns (t: TupleKey)
    ensures t !in index
  {
    var ports := set u | u in index :: u.source.port;
    var n := Above(ports);
    t := TupleKey(4, 6, Endpoint([], n), Endpoint([], 0));
    assert t in index ==> n in ports;
  }

  /** One new thread allocates the next generation under a chosen flow id. */
  lemma AllocatesNext(s: System, flowId: nat) returns (acts: seq<Action>, p: nat)
    ensures Runs(s, acts) && Background(acts)
    ensures var s' := Exec(s, acts);
            && p in s'.threads && Creates(s'.threads[p], FlowKey(flowId, s.m.nextGeneration + 1))
            && s'.m.nextGeneration == s.m.nextGeneration + 1
  {
    p := Above(s.threads.Keys);
    var t := UnusedTuple(s.m.index);
    var c := Choice(Packet(t, true), flowId, Some(Endpoint([], 1)), 0, true);
    acts := Push(s, [], Spawn(p));
    acts := Push(s, acts, Run(p, c));
    acts := Push(s, acts, Run(p, c));
  }

  lemma {:induction false} Allocates(s: System, k: FlowKey) returns (acts: seq<Action>, p: nat)
    requires k.generation > s.m.nextGeneration
    ensures Runs(s, acts) && Background(acts)
    ensures p in Exec(s, acts).threads && Creates(Exec(s, acts).threads[p], k)
    decreases k.generation - s.m.nextGeneration
  {
    acts, p := AllocatesNext(s, k.flowId);
    if k.generation > s.m.nextGeneration + 1 {
      var rest: seq<Action>;
      rest, p := Allocates(Exec(s, acts), k);
      ExecAppend(s, acts, rest);
      acts := acts + rest;
    }
  }

  // ----- The exact condition -----

  /** Some schedule of packets brings a generation that is not targetable into a creator's state. */
  lemma CreatorAppears(s: System, k: FlowKey) returns (acts: seq<Action>, p: nat)
    requires Excluded(s) && Balanced(s) && !Targetable(s, k)
    ensures Runs(s, acts) && Background(acts)
    ensures p in Exec(s, acts).threads && HoldsState(Exec(s, acts).threads[p]) && Exec(s, acts).threads[p].key == k
  {
    acts := [];
    if k.generation > s.m.nextGeneration {
      acts, p := Allocates(s, k);
    } else {
      p :| p in s.threads && Creates(s.threads[p], k);
    }
    BackgroundKeeps(s, acts);
    var rest := CreatorProceeds(Exec(s, acts), p);
    ExecAppend(s, acts, rest);
    acts := acts + rest;
  }

  lemma Joins(s: System, op: DeleteOp, acts: seq<Action>, rest: seq<Action>)
    requires s.host.Waiting? && Runs(s, acts) && Background(acts)
    requires Exec(s, acts).host.Waiting? && Runs(Apply(Exec(s, acts), Begin(op)), rest)
    ensures Runs(Apply(s, Begin(op)), acts + rest)
    ensures Exec(Apply(s, Begin(op)), acts + rest) == Exec(Apply(Exec(s, acts), Begin(op)), rest)
  {
    BeginCommutes(s, op, acts);
    ExecAppend(Apply(s, Begin(op)), acts, rest);
  }

  /** A delete of any other generation, whenever it is started, has a schedule that unbalances the slots. */
  lemma UntargetableUnbalances(s: System, k: FlowKey, deadline: nat) returns (acts: seq<Action>)
    requires Excluded(s) && Balanced(s) && s.host.Waiting? && !Targetable(s, k)
    ensures var s1 := Apply(s, Begin(DeleteOp(k, 0, deadline)));
            Runs(s1, acts) && NoBegin(acts) && !Balanced(Exec(s1, acts))
  {
    var op := DeleteOp(k, 0, deadline);
    var p: nat;
    acts, p := CreatorAppears(s, k);
    BackgroundKeeps(s, acts);
    var rest := DeletingACreatingFlow(Exec(s, acts), p, deadline);
    Joins(s, op, acts, rest);
    acts := acts + rest;
  }

  ghost predicate BalancedAfter(s: System, op: DeleteOp, acts: seq<Action>)
    requires s.host.Waiting?
  {
    var s1 := Apply(s, Begin(op));
    Proper(s1, acts) ==> Runs(s1, acts) && Balanced(Exec(s1, acts))
  }

  /** Whatever is scheduled after it, a delete of k leaves the slots balanced. */
  ghost predicate SafeToDelete(s: System, k: FlowKey)
    requires s.host.Waiting?
  {
    forall op: DeleteOp, acts: seq<Action> {:trigger BalancedAfter(s, op, acts)} ::
      op.key == k ==> BalancedAfter(s, op, acts)
  }

  lemma BeginKeeps(s: System, op: DeleteOp)
    requires Excluded(s) && Balanced(s) && s.host.Waiting? && Targetable(s, op.key)
    ensures Excluded(Apply(s, Begin(op))) && Balanced(Apply(s, Begin(op)))
  {
    var s' := Apply(s, Begin(op));
    assert Enabled(s, Begin(op)) && Targeted(s, Begin(op));
    assert Next(s, s');
    StepKeepsExcluded(s, s');
    StepKeepsSlots(s, s');
  }

  /** In every reachable state between deletes, exactly the targetable generations are safe to delete. */
  lemma SafeExactlyIfTargetable(run: seq<System>, i: nat, k: FlowKey)
    requires IsRun(run) && i < |run| && run[i].host.Waiting?
    ensures SafeToDelete(run[i], k) <==> Targetable(run[i], k)
  {
    var s := run[i];
    ExcludedAlways(run, i);
    BalancedAlways(run, i);
    if Targetable(s, k) {
      forall op: DeleteOp, acts: seq<Action> | op.key == k ensures BalancedAfter(s, op, acts) {
        if Proper(Apply(s, Begin(op)), acts) {
          BeginKeeps(s, op);
          ProperKeeps(Apply(s, Begin(op)), acts);
        }
      }
    } else {
      var acts := UntargetableUnbalances(s, k, 0);
      NoBeginIsProper(Apply(s, Begin(DeleteOp(k, 0, 0))), acts);
      assert !BalancedAfter(s, DeleteOp(k, 0, 0), acts);
    }
  }
}
