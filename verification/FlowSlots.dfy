// The active-flow counter: every slot is accounted for, released once, and never
// granted beyond the configured capacity.
module FlowSlots {
  import opened Prelude
  import opened FlowMaps
  import opened PacketPath
  import opened HostOperation
  import opened FlowSystem
  import opened FlowOwnership
  import opened FlowOwnershipSteps
  import opened ThreadCounts

  /** The counter equals the reservations in progress, the live or journaled generations and the abandoned releases. */
  ghost predicate Balanced(s: System) {
    s.m.active == |Members(s.threads, SlotHolder)| + |Owing(s.m)| + s.m.giveUps
  }

  /** Granted reservations and owed slots stay within the configured capacity. */
  ghost predicate Bounded(s: System) {
    s.capacity != 0 ==> |Members(s.threads, Granted)| + |Owing(s.m)| <= s.capacity
  }

  /** Slots the counter holds for nobody in particular. */
  function Surplus(m: Maps): int {
    m.active - m.giveUps - |Owing(m)|
  }

  /** How a creator's step changes the set of owed slots. */
  function OwingDelta(st: Stage, pc': Pc): int {
    if st.InsertState? && pc'.Making? then 1
    else if st.Claim? && pc'.Making? && pc'.stage.ReleaseClaim? then -1
    else if st.UndoState? then -1
    else 0
  }

  lemma OwesMore(m: Maps, k: FlowKey, f: FlowState)
    requires k !in Owing(m)
    ensures |Owing(m.(states := m.states[k := f]))| == |Owing(m)| + 1
  {
    assert Owing(m.(states := m.states[k := f])) == Owing(m) + {k};
  }

  lemma ClaimOwes(m: Maps, k: FlowKey)
    requires k in m.journal && k !in m.states
    ensures |Owing(m.(journal := m.journal - {k}))| == |Owing(m)| - 1
  {
    assert Owing(m.(journal := m.journal - {k})) == Owing(m) - {k};
  }

  lemma UndoOwes(m: Maps, k: FlowKey)
    requires k in m.states && k !in m.journal
    ensures |Owing(m.(states := m.states - {k}))| == |Owing(m)| - 1
  {
    assert Owing(m.(states := m.states - {k})) == Owing(m) - {k};
  }

  lemma InsertOwing(capacity: nat, m: Maps, pkt: Packet, k: FlowKey, f: FlowState, c: Choice)
    requires ThreadOk(m, Making(pkt, k, f, InsertState))
    ensures var (m', pc') := MakeStep(capacity, m, pkt, k, f, InsertState, c);
            |Owing(m')| == |Owing(m)| + OwingDelta(InsertState, pc')
  {
    OwesMore(m, k, f);
  }

  lemma MakeOwing(capacity: nat, m: Maps, pkt: Packet, k: FlowKey, f: FlowState, st: Stage, c: Choice)
    requires ThreadOk(m, Making(pkt, k, f, st))
    ensures var (m', pc') := MakeStep(capacity, m, pkt, k, f, st, c);
            |Owing(m')| == |Owing(m)| + OwingDelta(st, pc')
  {
    if st.InsertState? { InsertOwing(capacity, m, pkt, k, f, c); }
    else if st.UndoState? { UndoOwes(m, k); }
    else if st.Claim? { if st.release in m.journal { ClaimOwes(m, st.release); } }
    else { OwingSame(capacity, m, pkt, k, f, st, c); }
  }

  lemma OwingSame(capacity: nat, m: Maps, pkt: Packet, k: FlowKey, f: FlowState, st: Stage, c: Choice)
    requires ThreadOk(m, Making(pkt, k, f, st)) && !st.InsertState? && !st.UndoState? && !st.Claim?
    ensures Owing(MakeStep(capacity, m, pkt, k, f, st, c).0) == Owing(m)
  {
  }

  lemma MakeActive(capacity: nat, m: Maps, pkt: Packet, k: FlowKey, f: FlowState, st: Stage, c: Choice)
    requires st.ReleaseClaim? ==> m.active > 0
    ensures var (m', pc') := MakeStep(capacity, m, pkt, k, f, st, c);
            && m'.active - m'.giveUps
               == m.active - m.giveUps + (if st.Reserve? then 1 else if st.ReleaseClaim? then -1 else 0)
            && OwingDelta(st, pc') + One(Has(SlotHolder, pc')) - One(IsGranted(Making(pkt, k, f, st)))
               == (if st.Reserve? then 1 else if st.ReleaseClaim? then -1 else 0)
            && OwingDelta(st, pc') + One(IsGranted(pc'))
               <= One(IsGranted(Making(pkt, k, f, st))) + One(st.Reserve? && IsGranted(pc'))
            && (st.Reserve? && IsGranted(pc') && capacity != 0 ==> m.active < capacity)
  {
  }

  ghost predicate SlotsMove(capacity: nat, m: Maps, pc: Pc, m': Maps, pc': Pc) {
    && Surplus(m') == Surplus(m) - One(Has(SlotHolder, pc)) + One(Has(SlotHolder, pc'))
    && (|Owing(m')| + One(IsGranted(pc')) <= |Owing(m)| + One(IsGranted(pc))
        || (|Owing(m')| == |Owing(m)| && (capacity != 0 ==> m.active < capacity)))
  }

  lemma MakeSlots(capacity: nat, m: Maps, pkt: Packet, k: FlowKey, f: FlowState, st: Stage, c: Choice)
    requires ThreadOk(m, Making(pkt, k, f, st)) && (Has(SlotHolder, Making(pkt, k, f, st)) ==> m.active > 0)
    ensures var (m', pc') := MakeStep(capacity, m, pkt, k, f, st, c);
            SlotsMove(capacity, m, Making(pkt, k, f, st), m', pc')
  {
    MakeOwing(capacity, m, pkt, k, f, st, c);
    MakeActive(capacity, m, pkt, k, f, st, c);
  }

  lemma OutsideSlots(capacity: nat, m: Maps, pc: Pc, c: Choice)
    requires !pc.Making? && !pc.Inside? && (Has(SlotHolder, pc) ==> m.active > 0)
    ensures var (m', pc') := ThreadStep(capacity, m, pc, c); SlotsMove(capacity, m, pc, m', pc')
  {
  }

  lemma InsideSlots(capacity: nat, m: Maps, pc: Pc, c: Choice)
    requires pc.Inside?
    ensures var (m', pc') := ThreadStep(capacity, m, pc, c); SlotsMove(capacity, m, pc, m', pc')
  {
    InsideOwing(m, pc.pkt, pc.key, pc.at, c);
  }

  /** One thread step moves the surplus exactly as it moves the thread in or out of the slot holders. */
  lemma ThreadSlots(capacity: nat, m: Maps, pc: Pc, c: Choice)
    requires ThreadOk(m, pc)
    requires Has(SlotHolder, pc) ==> m.active > 0
    ensures var (m', pc') := ThreadStep(capacity, m, pc, c); SlotsMove(capacity, m, pc, m', pc')
  {
    if pc.Making? {
      MakeSlots(capacity, m, pc.pkt, pc.key, pc.flow, pc.stage, c);
    } else if pc.Inside? {
      InsideSlots(capacity, m, pc, c);
    } else {
      OutsideSlots(capacity, m, pc, c);
    }
  }

  lemma InsideOwing(m: Maps, pkt: Packet, k: FlowKey, at: Spot, c: Choice)
    ensures var (m', pc') := InsideStep(m, pkt, k, at, c);
            && Owing(m') == Owing(m) && m'.active == m.active && m'.giveUps == m.giveUps
            && !Has(SlotHolder, pc')
  {
  }

  /** A classifier thread's step keeps the slot count balanced and bounded. */
  lemma ThreadKeepsSlots(s: System, p: nat, c: Choice)
    requires Owned(s) && Balanced(s) && p in s.threads
    ensures Balanced(Apply(s, Run(p, c)))
    ensures Bounded(s) ==> Bounded(Apply(s, Run(p, c)))
  {
    var pc := s.threads[p];
    var (m', pc') := ThreadStep(s.capacity, s.m, pc, c);
    assert ThreadOk(s.m, pc);
    if Has(SlotHolder, pc) { assert p in Members(s.threads, SlotHolder); }
    ThreadSlots(s.capacity, s.m, pc, c);
    MembersAfter(s.threads, p, pc', SlotHolder);
    MembersAfter(s.threads, p, pc', Granted);
    GrantedHold(s.threads);
  }

  lemma GrantedHold(threads: map<nat, Pc>)
    ensures |Members(threads, Granted)| <= |Members(threads, SlotHolder)|
  {
    var more := Members(threads, SlotHolder) - Members(threads, Granted);
    assert Members(threads, SlotHolder) == Members(threads, Granted) + more;
  }

  lemma HostOwing(m: Maps, h: Host, c: HostChoice)
    requires h.Busy? && HostOk(m, h)
    ensures var m' := HostStep(m, h, c).0;
            Owing(m') == Owing(m) && m'.active == m.active && m'.giveUps == m.giveUps
  {
    if Opening(h.at) {
    } else if Committing(h.at) {
      CommitOwing(m, h, c);
    } else {
      CloseOwing(m, h.op, h.at, c);
    }
  }

  lemma CommitOwing(m: Maps, h: Host, c: HostChoice)
    requires h.Busy? && Committing(h.at) && HostOk(m, h)
    ensures var m' := CommitStep(m, h.op, h.at, c).0;
            Owing(m') == Owing(m) && m'.active == m.active && m'.giveUps == m.giveUps
  {
  }

  lemma CloseOwing(m: Maps, op: DeleteOp, at: Phase, c: HostChoice)
    requires !Opening(at) && !Committing(at)
    ensures var m' := CloseStep(m, op, at, c).0;
            m'.states == m.states && m'.journal == m.journal && m'.active == m.active && m'.giveUps == m.giveUps
  {
  }

  lemma StepKeepsSlots(s: System, s': System)
    requires Owned(s) && Balanced(s) && Next(s, s')
    ensures Balanced(s')
    ensures Bounded(s) && s'.capacity == s.capacity ==> Bounded(s')
  {
    var a :| Enabled(s, a) && Targeted(s, a) && s' == Apply(s, a);
    match a
    case Run(p, c) => ThreadKeepsSlots(s, p, c);
    case HostRun(c) => HostOwing(s.m, s.host, c);
    case Spawn(p) =>
      MembersAfter(s.threads, p, Idle, SlotHolder);
      MembersAfter(s.threads, p, Idle, Granted);
    case _ =>
  }

  /** Exactly-once release: the counter balances in every state of every run. */
  lemma {:induction false} BalancedAlways(run: seq<System>, i: nat)
    requires IsRun(run) && i < |run|
    ensures Balanced(run[i])
  {
    if i == 0 {
      assert Members(run[0].threads, SlotHolder) == {};
    } else {
      BalancedAlways(run, i - 1);
      OwnedAlways(run, i - 1);
      assert StepAt(run, i - 1);
      StepKeepsSlots(run[i - 1], run[i]);
    }
  }

  /** While the configuration stands, granted and owed slots never exceed the capacity. */
  lemma {:induction false} BoundedAlways(run: seq<System>, i: nat)
    requires IsRun(run) && i < |run|
    requires forall j :: 0 <= j <= i ==> run[j].capacity == run[0].capacity
    ensures Bounded(run[i])
  {
    if i == 0 {
      assert Members(run[0].threads, Granted) == {};
      assert Owing(run[0].m) == {};
    } else {
      BoundedAlways(run, i - 1);
      OwnedAlways(run, i - 1);
      BalancedAlways(run, i - 1);
      assert StepAt(run, i - 1);
      StepKeepsSlots(run[i - 1], run[i]);
    }
  }
}
