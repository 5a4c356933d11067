// Deletion exclusion: the guard, the in-flight counter and the commit record keep
// every packet out of a generation while the host removes it.
module FlowExclusion {
  import opened Prelude
  import opened FlowMaps
  import opened PacketPath
  import opened HostOperation
  import opened FlowSystem
  import opened FlowOwnership
  import opened FlowOwnershipSteps
  import opened ThreadCounts

  // ----- The invariant -----

  /** The packet is between its admission and its leave. */
  predicate Open(pc: Pc, k: FlowKey) {
    pc.Inside? && pc.key == k && (pc.at.Admitted? || pc.at.Rewriting? || pc.at.Leave?)
  }

  /** A counted packet that can only meet the commit record and back out. */
  predicate Shut(pc: Pc) {
    pc.Inside? && (pc.at == Second(ReadGuard) || (pc.at.Second? && pc.at.g.ReadOutcome?) || pc.at.BackOut?)
  }

  /** The guarded delete has won the commit and still relies on it. */
  predicate Winning(h: Host) {
    h.Busy? &&
    match h.at
    case Quiesce(_) => true
    case ReadCommitted => true
    case Journal(_) => true
    case RemoveState(_) => true
    case Unjournal => true
    case CheckIndex(_, prog) => prog.guarded
    case RemoveIndex(_, prog) => prog.guarded
    case RemoveFlight(prog) => prog.guarded
    case ReadPending(prog) => prog.guarded
    case Publish(prog) => prog.guarded
    case _ => false
  }

  /** The host has seen the counter at zero after its commit. */
  predicate Quiescent(h: Host) {
    h.Busy? && (h.at.ReadCommitted? || h.at.Journal? || h.at.RemoveState?)
  }

  predicate Kept(op: DeleteOp, deleted: bool, removedAt: Option<nat>) {
    deleted ==> removedAt.Some? && (op.observed != 0 ==> removedAt.value == op.observed)
  }

  predicate ReportKept(op: DeleteOp, r: Report, removedAt: Option<nat>) {
    r.Report? ==> Kept(op, r.stateDeleted, removedAt)
  }

  ghost predicate GateOk(m: Maps, h: Host) {
    && (Winning(h) ==> h.op.key in m.outcome && m.outcome[h.op.key] == Committed)
    && (h.Busy? && (h.at.Journal? || h.at.RemoveState?) && h.op.observed != 0 && h.op.key in m.states ==>
          m.states[h.op.key].lastUsed == h.op.observed)
    && (h.Busy?
        && (h.at.CheckIndex? || h.at.RemoveIndex? || h.at.RemoveFlight? || h.at.ReadPending? || h.at.Publish?) ==>
          Kept(h.op, h.at.prog.stateDeleted, h.at.prog.removedAt))
    && (h.Busy? && (h.at.RemoveGuard? || h.at.RemoveOutcome?) ==> ReportKept(h.op, h.at.report, h.at.removedAt))
    && (forall i :: 0 <= i < |m.finished| ==>
          ReportKept(m.finished[i].op, m.finished[i].report, m.finished[i].removedAt))
  }

  ghost predicate PassOk(m: Maps, h: Host, pc: Pc) {
    && (pc.Inside? && Open(pc, pc.key) ==> IsActive(m, pc.key))
    && (Quiescent(h) && IsCounted(pc, h.op.key) ==> Shut(pc))
  }

  ghost predicate FlightOk(m: Maps, threads: map<nat, Pc>) {
    forall k :: k in m.inflight ==> m.inflight[k] == |Members(threads, InFlight(k))|
  }

  ghost predicate Excluded(s: System) {
    && Owned(s)
    && GateOk(s.m, s.host)
    && FlightOk(s.m, s.threads)
    && (forall p :: p in s.threads ==> PassOk(s.m, s.host, s.threads[p]))
  }

  // ----- Thread steps -----

  lemma FlightStep(capacity: nat, m: Maps, pc: Pc, c: Choice, k: FlowKey)
    requires ThreadOk(m, pc)
    ensures var (m', pc') := ThreadStep(capacity, m, pc, c);
            k in m'.inflight ==>
              if k in m.inflight
              then m'.inflight[k] == m.inflight[k] - One(IsCounted(pc, k)) + One(IsCounted(pc', k))
              else m'.inflight[k] == 0 && k !in m.settled && !IsCounted(pc', k)
  {
    if pc.Making? { MakeFlight(capacity, m, pc, c, k); }
    else if pc.Inside? { InsideFlight(capacity, m, pc, c, k); }
  }

  lemma MakeFlight(capacity: nat, m: Maps, pc: Pc, c: Choice, k: FlowKey)
    requires pc.Making? && ThreadOk(m, pc)
    ensures var (m', pc') := ThreadStep(capacity, m, pc, c);
            && !pc'.Inside?
            && (k in m'.inflight ==> k !in m.settled || k in m.inflight)
            && (k in m'.inflight ==> m'.inflight[k] == if k in m.inflight then m.inflight[k] else 0)
  {
  }

  lemma InsideFlight(capacity: nat, m: Maps, pc: Pc, c: Choice, k: FlowKey)
    requires pc.Inside?
    ensures var (m', pc') := ThreadStep(capacity, m, pc, c);
            && m'.inflight.Keys == m.inflight.Keys
            && (k in m'.inflight ==>
                  m'.inflight[k] == m.inflight[k] - One(IsCounted(pc, k)) + One(IsCounted(pc', k)))
  {
    if pc.at.First? || pc.at.Second? {
      assert GuardStep(m, pc.key, pc.at.g, c).0.inflight == m.inflight;
    }
  }

  /** What a thread step does to settled generations: nothing but a timestamp, by an admitted packet. */
  ghost predicate SettledKept(m: Maps, pc: Pc, m': Maps) {
    && (forall k :: k in m.settled && k in m.states ==>
          && k in m'.states
          && m'.states[k].lifecycle == m.states[k].lifecycle
          && (m'.states[k].lastUsed == m.states[k].lastUsed || (pc.Inside? && pc.key == k && pc.at.Admitted?)))
    && (forall k :: k in m.outcome ==> k in m'.outcome && m'.outcome[k] == m.outcome[k])
    && m'.finished == m.finished
  }

  lemma GuardEffect(m: Maps, pc: Pc, k: FlowKey, g: Guard, c: Choice)
    ensures SettledKept(m, pc, GuardStep(m, k, g, c).0)
  {
  }

  lemma MakeTouches(capacity: nat, m: Maps, pkt: Packet, k: FlowKey, f: FlowState, st: Stage, c: Choice)
    ensures var m' := MakeStep(capacity, m, pkt, k, f, st, c).0;
            && (m'.states == m.states || m'.states == m.states - {k}
                || m'.states == m.states[k := f] || m'.states == m.states[k := f.(lifecycle := Active)])
  {
  }

  lemma MakeLeaves(capacity: nat, m: Maps, pkt: Packet, k: FlowKey, f: FlowState, st: Stage, c: Choice)
    ensures var m' := MakeStep(capacity, m, pkt, k, f, st, c).0; m'.outcome == m.outcome && m'.finished == m.finished
  {
  }

  lemma MakeEffect(capacity: nat, m: Maps, pc: Pc, c: Choice)
    requires pc.Making? && ThreadOk(m, pc)
    ensures SettledKept(m, pc, ThreadStep(capacity, m, pc, c).0)
  {
    MakeTouches(capacity, m, pc.pkt, pc.key, pc.flow, pc.stage, c);
    MakeLeaves(capacity, m, pc.pkt, pc.key, pc.flow, pc.stage, c);
    assert pc.key !in m.settled;
  }

  lemma OutsideEffect(capacity: nat, m: Maps, pc: Pc, c: Choice)
    requires !pc.Making? && !pc.Inside?
    ensures SettledKept(m, pc, ThreadStep(capacity, m, pc, c).0)
  {
  }

  lemma SpotEffect(capacity: nat, m: Maps, pc: Pc, c: Choice)
    requires pc.Inside? && !pc.at.First? && !pc.at.Second?
    ensures SettledKept(m, pc, ThreadStep(capacity, m, pc, c).0)
  {
  }

  lemma ThreadEffect(capacity: nat, m: Maps, pc: Pc, c: Choice)
    requires ThreadOk(m, pc)
    ensures SettledKept(m, pc, ThreadStep(capacity, m, pc, c).0)
  {
    if pc.Making? { MakeEffect(capacity, m, pc, c); }
    else if !pc.Inside? { OutsideEffect(capacity, m, pc, c); }
    else if pc.at.First? || pc.at.Second? { GuardEffect(m, pc, pc.key, pc.at.g, c); }
    else { SpotEffect(capacity, m, pc, c); }
  }

  lemma GateKept(m: Maps, h: Host, pc: Pc, m': Maps)
    requires GateOk(m, h) && HostOk(m, h) && PassOk(m, h, pc) && SettledKept(m, pc, m')
    ensures GateOk(m', h)
  {
  }

  /** A packet that reads the outcome after the commit is turned away. */
  lemma OwnPassKept(capacity: nat, m: Maps, h: Host, pc: Pc, c: Choice)
    requires ThreadOk(m, pc) && HostOk(m, h) && GateOk(m, h) && PassOk(m, h, pc)
    ensures var (m', pc') := ThreadStep(capacity, m, pc, c);
            PassOk(m', h, pc')
  {
    ThreadEffect(capacity, m, pc, c);
    if !pc.Inside? {
      var pc' := ThreadStep(capacity, m, pc, c).1;
      assert pc'.Inside? ==> pc'.at == First(ReadGuard);
    } else if Quiescent(h) && h.op.key == pc.key {
      assert m.outcome[pc.key] == Committed;
    }
  }

  /** A classifier thread's step keeps the exclusion invariant. */
  lemma ThreadKeepsExcluded(s: System, p: nat, c: Choice)
    requires Excluded(s) && p in s.threads
    ensures Excluded(Apply(s, Run(p, c)))
  {
    var pc := s.threads[p];
    var (m', pc') := ThreadStep(s.capacity, s.m, pc, c);
    var s' := Apply(s, Run(p, c));
    ThreadKeepsOwned(s, p, c);
    assert ThreadOk(s.m, pc) && PassOk(s.m, s.host, pc);
    ThreadEffect(s.capacity, s.m, pc, c);
    GateKept(s.m, s.host, pc, m');
    forall k | k in m'.inflight ensures m'.inflight[k] == |Members(s'.threads, InFlight(k))| {
      FlightStep(s.capacity, s.m, pc, c, k);
      MembersAfter(s.threads, p, pc', InFlight(k));
      if k !in s.m.inflight { UnsettledUncounted(s, k); }
    }
    OwnPassKept(s.capacity, s.m, s.host, pc, c);
    forall q | q in s'.threads ensures PassOk(m', s.host, s'.threads[q]) {
      if q != p { assert ThreadOk(s.m, s.threads[q]) && PassOk(s.m, s.host, s.threads[q]); }
    }
  }

  lemma UnsettledUncounted(s: System, k: FlowKey)
    requires Owned(s) && k !in s.m.settled
    ensures Members(s.threads, InFlight(k)) == {}
  {
    forall q | q in s.threads ensures !IsCounted(s.threads[q], k) {
      assert ThreadOk(s.m, s.threads[q]);
    }
  }

  // ----- Host steps -----

  lemma OpenGate(m: Maps, h: Host, c: HostChoice)
    requires h.Busy? && Opening(h.at) && GateOk(m, h)
    ensures var (m', h') := HostStep(m, h, c);
            GateOk(m', h')
  {
  }

  lemma CommitGate(m: Maps, h: Host, c: HostChoice)
    requires h.Busy? && Committing(h.at) && GateOk(m, h)
    ensures var (m', h') := HostStep(m, h, c);
            GateOk(m', h')
  {
  }

  lemma CleanGate(m: Maps, h: Host, c: HostChoice)
    requires h.Busy? && (h.at.CheckIndex? || h.at.RemoveIndex? || h.at.RemoveFlight?) && GateOk(m, h)
    ensures var (m', h') := HostStep(m, h, c);
            GateOk(m', h')
  {
  }

  lemma PublishGate(m: Maps, h: Host, c: HostChoice)
    requires h.Busy? && (h.at.ReadPending? || h.at.Publish?)
    requires GateOk(m, h)
    ensures var (m', h') := HostStep(m, h, c);
            GateOk(m', h')
  {
  }

  lemma CloseGate(m: Maps, h: Host, c: HostChoice)
    requires h.Busy? && (h.at.RemoveGuard? || h.at.RemoveOutcome?)
    requires GateOk(m, h)
    ensures var (m', h') := HostStep(m, h, c);
            GateOk(m', h')
  {
  }

  /** A host step removes a counter or leaves it, and removes a state only at RemoveState. */
  ghost predicate Removes(m: Maps, op: DeleteOp, at: Phase, m': Maps, h': Host, k: FlowKey) {
    && (k in m'.inflight ==> k in m.inflight && m'.inflight[k] == m.inflight[k])
    && (IsActive(m, k) && !IsActive(m', k) ==> k == op.key && at.RemoveState?)
    && (Quiescent(h') ==> h'.op == op && (Quiescent(Busy(op, at)) || (at.Quiesce? && InFlightZero(m, op.key))))
  }

  lemma OpenEffect(m: Maps, op: DeleteOp, at: Phase, c: HostChoice, k: FlowKey)
    requires Opening(at)
    ensures var (m', h') := OpenStep(m, op, at, c); Removes(m, op, at, m', h', k)
  {
  }

  lemma CommitEffect(m: Maps, op: DeleteOp, at: Phase, c: HostChoice, k: FlowKey)
    requires Committing(at)
    ensures var (m', h') := CommitStep(m, op, at, c); Removes(m, op, at, m', h', k)
  {
  }

  lemma CloseEffect(m: Maps, op: DeleteOp, at: Phase, c: HostChoice, k: FlowKey)
    requires !Opening(at) && !Committing(at)
    ensures var (m', h') := CloseStep(m, op, at, c); Removes(m, op, at, m', h', k)
  {
  }

  lemma HostEffect(m: Maps, op: DeleteOp, at: Phase, c: HostChoice, k: FlowKey)
    ensures var (m', h') := HostStep(m, Busy(op, at), c); Removes(m, op, at, m', h', k)
  {
    if Opening(at) { OpenEffect(m, op, at, c, k); }
    else if Committing(at) { CommitEffect(m, op, at, c, k); }
    else { CloseEffect(m, op, at, c, k); }
  }

  lemma PassKeptByHost(s: System, c: HostChoice, p: nat)
    requires Excluded(s) && s.host.Busy? && p in s.threads
    ensures var (m', h') := HostStep(s.m, s.host, c);
            PassOk(m', h', s.threads[p])
  {
    var pc, k := s.threads[p], s.host.op.key;
    var (m', h') := HostStep(s.m, s.host, c);
    assert PassOk(s.m, s.host, pc) && ThreadOk(s.m, pc);
    HostEffect(s.m, s.host.op, s.host.at, c, if pc.Inside? then pc.key else k);
    if s.host.at.Quiesce? && InFlightZero(s.m, k) {
      assert KeyOk(s.m, s.host, k);
      NobodyCounted(s.threads, InFlight(k), p);
    }
  }

  /** A host step keeps the exclusion invariant. */
  lemma HostKeepsExcluded(s: System, c: HostChoice)
    requires Excluded(s) && s.host.Busy?
    ensures Excluded(Apply(s, HostRun(c)))
  {
    var (m', h') := HostStep(s.m, s.host, c);
    HostKeepsOwned(s, c);
    if Opening(s.host.at) { OpenGate(s.m, s.host, c); }
    else if Committing(s.host.at) { CommitGate(s.m, s.host, c); }
    else if s.host.at.CheckIndex? || s.host.at.RemoveIndex? || s.host.at.RemoveFlight? { CleanGate(s.m, s.host, c); }
    else if s.host.at.ReadPending? || s.host.at.Publish? { PublishGate(s.m, s.host, c); }
    else { CloseGate(s.m, s.host, c); }
    forall k | k in m'.inflight ensures m'.inflight[k] == |Members(s.threads, InFlight(k))| {
      HostEffect(s.m, s.host.op, s.host.at, c, k);
    }
    forall p | p in s.threads ensures PassOk(m', h', s.threads[p]) {
      PassKeptByHost(s, c, p);
    }
  }

  lemma StepKeepsExcluded(s: System, s': System)
    requires Excluded(s) && Next(s, s')
    ensures Excluded(s')
  {
    var a :| Enabled(s, a) && Targeted(s, a) && s' == Apply(s, a);
    StepKeepsOwned(s, s');
    match a
    case Run(p, c) => ThreadKeepsExcluded(s, p, c);
    case HostRun(c) => HostKeepsExcluded(s, c);
    case Begin(op) =>
    case Spawn(p) =>
      forall k | k in s'.m.inflight ensures s'.m.inflight[k] == |Members(s'.threads, InFlight(k))| {
        MembersAfter(s.threads, p, Idle, InFlight(k));
      }
    case Configure(_) =>
  }

  lemma {:induction false} ExcludedAlways(run: seq<System>, i: nat)
    requires IsRun(run) && i < |run|
    ensures Excluded(run[i])
  {
    if i == 0 {
      OwnedAlways(run, 0);
    } else {
      ExcludedAlways(run, i - 1);
      assert StepAt(run, i - 1);
      StepKeepsExcluded(run[i - 1], run[i]);
    }
  }
}
