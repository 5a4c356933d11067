// What the flow protocol promises, over every run of any number of packets and deletes.
module FlowTheorems {
  import opened Prelude
  import opened FlowMaps
  import opened PacketPath
  import opened HostOperation
  import opened FlowSystem
  import opened FlowOwnership
  import opened FlowOwnershipSteps
  import opened FlowExclusion

  predicate Retired(m: Maps, k: FlowKey) {
    k in m.settled && k !in m.states
  }

  lemma RetiredStep(s: System, s': System, k: FlowKey)
    requires Owned(s) && Next(s, s') && Retired(s.m, k)
    ensures Retired(s'.m, k)
  {
    var a :| Enabled(s, a) && Targeted(s, a) && s' == Apply(s, a);
    match a
    case Run(p, c) =>
      ThreadStepFrame(s, p, c);
      assert ThreadOk(s.m, s.threads[p]);
      assert Untouched(s.m, s'.m, k);
    case HostRun(c) =>
      HostStepFrame(s, c);
      if k != s.host.op.key { assert Untouched(s.m, s'.m, k); }
    case _ =>
  }

  /** A deleted generation never comes back. */
  lemma {:induction false} RetiredForever(run: seq<System>, i: nat, j: nat, k: FlowKey)
    requires IsRun(run) && i <= j < |run| && Retired(run[i].m, k)
    ensures Retired(run[j].m, k)
  {
    if i < j {
      RetiredForever(run, i, j - 1, k);
      OwnedAlways(run, j - 1);
      assert StepAt(run, j - 1);
      RetiredStep(run[j - 1], run[j], k);
    }
  }

  /** An ACTIVE state disappears only in the host's RemoveState step. */
  lemma RemovedByHost(s: System, s': System, k: FlowKey)
    requires Owned(s) && Next(s, s')
    requires IsActive(s.m, k) && k !in s'.m.states
    ensures s.host.Busy? && s.host.op.key == k && s.host.at.RemoveState?
  {
    var a :| Enabled(s, a) && Targeted(s, a) && s' == Apply(s, a);
    assert KeyOk(s.m, s.host, k);
    match a
    case Run(p, c) =>
      assert ThreadOk(s.m, s.threads[p]);
      ThreadEffect(s.capacity, s.m, s.threads[p], c);
    case HostRun(c) => HostEffect(s.m, s.host.op, s.host.at, c, k);
    case _ =>
  }

  lemma RemovedWhileShut(s: System, s': System, k: FlowKey)
    requires Excluded(s) && Next(s, s') && IsActive(s.m, k) && k !in s'.m.states
    ensures forall q :: q in s.threads ==> !Open(s.threads[q], k)
    ensures Retired(s'.m, k)
  {
    assert KeyOk(s.m, s.host, k);
    RemovedByHost(s, s', k);
    forall q | q in s.threads ensures !Open(s.threads[q], k) {
      assert PassOk(s.m, s.host, s.threads[q]);
    }
    SettledStep(s, s');
  }

  /** Deletion exclusion: no packet is inside a generation when its state is removed, and none enters it afterwards. */
  lemma DeletionExclusion(run: seq<System>, i: nat, j: nat, p: nat, k: FlowKey)
    requires IsRun(run) && i < j < |run| && p in run[j].threads
    requires IsActive(run[i].m, k) && k !in run[i + 1].m.states
    ensures forall q :: q in run[i].threads ==> !Open(run[i].threads[q], k)
    ensures !Open(run[j].threads[p], k)
  {
    RemovedAt(run, i, k);
    RetiredForever(run, i + 1, j, k);
    ExcludedAlways(run, j);
    RetiredIsShut(run[j], p, k);
  }

  lemma RemovedAt(run: seq<System>, i: nat, k: FlowKey)
    requires IsRun(run) && i + 1 < |run| && IsActive(run[i].m, k) && k !in run[i + 1].m.states
    ensures forall q :: q in run[i].threads ==> !Open(run[i].threads[q], k)
    ensures Retired(run[i + 1].m, k)
  {
    ExcludedAlways(run, i);
    var s, s' := run[i], run[i + 1];
    assert StepAt(run, i);
    RemovedWhileShut(s, s', k);
  }

  lemma RetiredIsShut(s: System, p: nat, k: FlowKey)
    requires Excluded(s) && Retired(s.m, k) && p in s.threads
    ensures !Open(s.threads[p], k)
  {
    assert PassOk(s.m, s.host, s.threads[p]);
  }

  lemma SettledStep(s: System, s': System)
    requires Owned(s) && Next(s, s')
    ensures s.m.settled <= s'.m.settled
  {
    var a :| Enabled(s, a) && Targeted(s, a) && s' == Apply(s, a);
    match a
    case Run(p, c) =>
      ThreadStepFrame(s, p, c);
      assert ThreadOk(s.m, s.threads[p]);
      forall k | k in s.m.settled ensures k in s'.m.settled {
        assert Untouched(s.m, s'.m, k);
      }
    case HostRun(c) => HostStepFrame(s, c);
    case _ =>
  }

  /** Observation stability: the state removed is the one the host enumerated, and only after its commit. */
  lemma ObservationStability(run: seq<System>, i: nat, k: FlowKey)
    requires IsRun(run) && i + 1 < |run|
    requires IsActive(run[i].m, k) && k !in run[i + 1].m.states
    ensures run[i].host.Busy? && run[i].host.op.key == k
    ensures run[i].host.op.observed != 0 ==> run[i].m.states[k].lastUsed == run[i].host.op.observed
    ensures k in run[i].m.outcome && run[i].m.outcome[k] == Committed
    ensures k in run[i].m.journal
  {
    ExcludedAlways(run, i);
    assert StepAt(run, i);
    RemovedByHost(run[i], run[i + 1], k);
  }

  /** Every report of a removed state carries the observed timestamp. */
  lemma ReportedRemovals(run: seq<System>, i: nat, f: Finished)
    requires IsRun(run) && i < |run| && f in run[i].m.finished
    requires f.report.Report? && f.report.stateDeleted
    ensures f.removedAt.Some? && (f.op.observed != 0 ==> f.removedAt.value == f.op.observed)
  {
    ExcludedAlways(run, i);
    var n :| 0 <= n < |run[i].m.finished| && run[i].m.finished[n] == f;
    assert ReportKept(run[i].m.finished[n].op, run[i].m.finished[n].report, run[i].m.finished[n].removedAt);
  }

  // ----- Losing the commit -----

  predicate SameTables(m: Maps, m': Maps) {
    && m'.index == m.index && m'.states == m.states && m'.inflight == m.inflight
    && m'.active == m.active && m'.journal == m.journal && m'.queue == m.queue
  }

  /** A report that claims no removal: an error, or an observation mismatch. */
  predicate Lost(r: Report) {
    r.Failed? || (r.mismatch && !r.stateDeleted)
  }

  /** The guard stands and the delete has yet to record its commit. */
  predicate Undecided(h: Host, op: DeleteOp) {
    h.Busy? && h.op == op && (h.at.Drain? || h.at.ReadStable? || h.at.Commit?)
  }

  /** An outcome recorded before the commit, or a lost delete putting its guard away. */
  predicate Doomed(m: Maps, h: Host, op: DeleteOp, v: Outcome) {
    || (Undecided(h, op) && op.key in m.outcome && m.outcome[op.key] == v)
    || (h.Busy? && h.op == op && (h.at.RemoveGuard? || h.at.RemoveOutcome?) && Lost(h.at.report))
  }

  /** The delete is over and has reported its loss. */
  predicate EndedLost(m: Maps, h: Host, op: DeleteOp) {
    h.Waiting? && m.finished != [] && m.finished[|m.finished| - 1].op == op && Lost(m.finished[|m.finished| - 1].report)
  }

  lemma DoomedByHost(m: Maps, op: DeleteOp, at: Phase, v: Outcome, c: HostChoice)
    requires Doomed(m, Busy(op, at), op, v)
    ensures var (m', h') := HostStep(m, Busy(op, at), c);
            SameTables(m, m') && (Doomed(m', h', op, v) || EndedLost(m', h', op))
  {
  }

  lemma DoomedStep(s: System, s': System, op: DeleteOp, v: Outcome)
    requires Owned(s) && Next(s, s') && Doomed(s.m, s.host, op, v)
    ensures Doomed(s'.m, s'.host, op, v) || EndedLost(s'.m, s'.host, op)
    ensures s'.host != s.host ==> SameTables(s.m, s'.m)
  {
    var a :| Enabled(s, a) && Targeted(s, a) && s' == Apply(s, a);
    match a
    case Run(p, c) =>
      assert ThreadOk(s.m, s.threads[p]);
      ThreadEffect(s.capacity, s.m, s.threads[p], c);
    case HostRun(c) => DoomedByHost(s.m, op, s.host.at, v, c);
    case _ =>
  }

  /** A host step at position l of the run changes no table. */
  predicate QuietAt(run: seq<System>, l: nat)
    requires l + 1 < |run|
  {
    run[l + 1].host != run[l].host ==> SameTables(run[l].m, run[l + 1].m)
  }

  /**
   * If a packet records ABORTED at any time between the guard insertion and the commit, the record stands
   * until the delete has lost, whatever the packets do; the delete changes no state, index, journal or slot,
   * and its report claims no removal.
   */
  lemma {:induction false} AbortWins(run: seq<System>, op: DeleteOp, v: Outcome, i: nat, j: nat)
    requires IsRun(run) && i <= j < |run|
    requires Undecided(run[i].host, op) && op.key in run[i].m.outcome && run[i].m.outcome[op.key] == v
    requires forall l :: i <= l < j ==> run[l].host.Busy?
    ensures Undecided(run[j].host, op) ==> op.key in run[j].m.outcome && run[j].m.outcome[op.key] == v
    ensures Doomed(run[j].m, run[j].host, op, v) || EndedLost(run[j].m, run[j].host, op)
    ensures forall l :: i <= l < j ==> QuietAt(run, l)
  {
    if i < j {
      AbortWins(run, op, v, i, j - 1);
      OwnedAlways(run, j - 1);
      var s, s' := run[j - 1], run[j];
      assert StepAt(run, j - 1);
      DoomedStep(s, s', op, v);
      assert QuietAt(run, j - 1);
    }
  }

  // ----- A flow is not left blocked -----

  ghost predicate FailedBefore(finished: seq<Finished>, k: FlowKey) {
    exists f :: f in finished && f.op.key == k && (f.report.Failed? || f.report.partial)
  }

  /** The running delete has recorded its commit and not yet cleared it. */
  predicate Holding(h: Host, k: FlowKey) {
    h.Busy? && h.op.key == k && (Winning(h) || h.at.RemoveGuard? || h.at.RemoveOutcome?)
  }

  predicate IsCommitted(m: Maps, k: FlowKey) {
    k in m.outcome && m.outcome[k] == Committed
  }

  ghost predicate Excused(m: Maps, h: Host, k: FlowKey) {
    IsCommitted(m, k) ==> FailedBefore(m.finished, k) || Holding(h, k)
  }

  /** The log grows by one report when a delete ends. */
  predicate Grows(m: Maps, m': Maps, h': Host) {
    if h'.Waiting? then |m'.finished| == |m.finished| + 1 && m'.finished[..|m.finished|] == m.finished
    else m'.finished == m.finished
  }

  lemma FinishedGrows(m: Maps, op: DeleteOp, at: Phase, c: HostChoice)
    ensures var (m', h') := HostStep(m, Busy(op, at), c); Grows(m, m', h')
  {
    if Opening(at) { assert var (m', h') := OpenStep(m, op, at, c); Grows(m, m', h'); }
    else if Committing(at) { assert var (m', h') := CommitStep(m, op, at, c); Grows(m, m', h'); }
    else { assert var (m', h') := CloseStep(m, op, at, c); Grows(m, m', h'); }
  }

  lemma OtherRecords(m: Maps, op: DeleteOp, at: Phase, c: HostChoice, k: FlowKey)
    requires k != op.key
    ensures IsCommitted(HostStep(m, Busy(op, at), c).0, k) ==> IsCommitted(m, k)
  {
  }

  /** The record of the delete's own key is an old one, is still held, or the delete ends in failure. */
  predicate OwnRecord(m: Maps, op: DeleteOp, at: Phase, m': Maps, h': Host) {
    IsCommitted(m', op.key) ==>
      || (IsCommitted(m, op.key) && !Holding(Busy(op, at), op.key))
      || Holding(h', op.key)
      || (m'.finished != [] && var f := m'.finished[|m'.finished| - 1];
          f.op.key == op.key && (f.report.Failed? || f.report.partial))
  }

  lemma OpenRecord(m: Maps, op: DeleteOp, at: Phase, c: HostChoice)
    requires Opening(at)
    ensures var (m', h') := OpenStep(m, op, at, c); OwnRecord(m, op, at, m', h')
  {
  }

  lemma CommitRecord(m: Maps, op: DeleteOp, at: Phase, c: HostChoice)
    requires Committing(at)
    ensures var (m', h') := CommitStep(m, op, at, c); OwnRecord(m, op, at, m', h')
  {
  }

  lemma CleanRecord(m: Maps, op: DeleteOp, at: Phase, c: HostChoice)
    requires at.CheckIndex? || at.RemoveIndex? || at.RemoveFlight?
    ensures var (m', h') := CloseStep(m, op, at, c); OwnRecord(m, op, at, m', h')
  {
  }

  lemma PublishRecord(m: Maps, op: DeleteOp, at: Phase, c: HostChoice)
    requires at.ReadPending? || at.Publish?
    ensures var (m', h') := CloseStep(m, op, at, c); OwnRecord(m, op, at, m', h')
  {
  }

  lemma CloseRecord(m: Maps, op: DeleteOp, at: Phase, c: HostChoice)
    requires at.RemoveGuard? || at.RemoveOutcome?
    ensures var (m', h') := CloseStep(m, op, at, c); OwnRecord(m, op, at, m', h')
  {
  }

  lemma HostRecord(m: Maps, op: DeleteOp, at: Phase, c: HostChoice)
    ensures var (m', h') := HostStep(m, Busy(op, at), c); OwnRecord(m, op, at, m', h')
  {
    if Opening(at) { OpenRecord(m, op, at, c); }
    else if Committing(at) { CommitRecord(m, op, at, c); }
    else if at.RemoveGuard? || at.RemoveOutcome? { CloseRecord(m, op, at, c); }
    else if at.ReadPending? || at.Publish? { PublishRecord(m, op, at, c); }
    else { CleanRecord(m, op, at, c); }
  }

  lemma FailureKept(m: Maps, m': Maps, h': Host, k: FlowKey)
    requires Grows(m, m', h') && FailedBefore(m.finished, k)
    ensures FailedBefore(m'.finished, k)
  {
    var f :| f in m.finished && f.op.key == k && (f.report.Failed? || f.report.partial);
    assert h'.Waiting? ==> f in m'.finished[..|m.finished|];
  }

  lemma ExcusedByHost(m: Maps, op: DeleteOp, at: Phase, c: HostChoice, k: FlowKey)
    requires Excused(m, Busy(op, at), k)
    ensures var (m', h') := HostStep(m, Busy(op, at), c); Excused(m', h', k)
  {
    var (m', h') := HostStep(m, Busy(op, at), c);
    FinishedGrows(m, op, at, c);
    if FailedBefore(m.finished, k) { FailureKept(m, m', h', k); }
    if k == op.key { HostRecord(m, op, at, c); } else { OtherRecords(m, op, at, c, k); }
    assert m'.finished != [] ==> m'.finished[|m'.finished| - 1] in m'.finished;
  }

  lemma GuardRecords(m: Maps, k: FlowKey, g: Guard, c: Choice, x: FlowKey)
    ensures var m' := GuardStep(m, k, g, c).0;
            (IsCommitted(m', x) ==> IsCommitted(m, x)) && m'.finished == m.finished
  {
  }

  lemma ThreadRecords(capacity: nat, m: Maps, pc: Pc, c: Choice, k: FlowKey)
    ensures var m' := ThreadStep(capacity, m, pc, c).0;
            (IsCommitted(m', k) ==> IsCommitted(m, k)) && m'.finished == m.finished
  {
    if pc.Making? { MakeLeaves(capacity, m, pc.pkt, pc.key, pc.flow, pc.stage, c); }
    else if pc.Inside? && (pc.at.First? || pc.at.Second?) { GuardRecords(m, pc.key, pc.at.g, c, k); }
  }

  lemma ExcusedStep(s: System, s': System, k: FlowKey)
    requires Next(s, s') && Excused(s.m, s.host, k)
    ensures Excused(s'.m, s'.host, k)
  {
    var a :| Enabled(s, a) && Targeted(s, a) && s' == Apply(s, a);
    match a
    case Run(p, c) => ThreadRecords(s.capacity, s.m, s.threads[p], c, k);
    case HostRun(c) => ExcusedByHost(s.m, s.host.op, s.host.at, c, k);
    case _ =>
  }

  lemma {:induction false} ExcusedAlways(run: seq<System>, i: nat, k: FlowKey)
    requires IsRun(run) && i < |run|
    ensures Excused(run[i].m, run[i].host, k)
  {
    if i > 0 {
      ExcusedAlways(run, i - 1, k);
      var s, s' := run[i - 1], run[i];
      assert StepAt(run, i - 1);
      ExcusedStep(s, s', k);
    }
  }

  /** Between deletes a commit record turns packets away only from a generation one of whose deletes
      said it had failed. */
  lemma NotLeftBlocked(run: seq<System>, i: nat, k: FlowKey)
    requires IsRun(run) && i < |run| && run[i].host.Waiting? && IsCommitted(run[i].m, k)
    ensures exists f :: f in run[i].m.finished && f.op.key == k && (f.report.Failed? || f.report.partial)
  {
    ExcusedAlways(run, i, k);
  }

  // ----- Index ownership -----

  /** Every ACTIVE generation owns exactly its three distinct tuples. */
  lemma ActiveOwnsThree(run: seq<System>, i: nat, k: FlowKey, t: TupleKey)
    requires IsRun(run) && i < |run| && IsActive(run[i].m, k)
    ensures Names(run[i].m, t, k) <==> HasTuple(run[i].m.states[k], t)
    ensures var f := run[i].m.states[k];
            f.original != f.target && f.target != f.reverse && f.original != f.reverse
  {
    OwnedAlways(run, i);
    assert KeyOk(run[i].m, run[i].host, k);
  }

  lemma ThreadOrphans(capacity: nat, m: Maps, pc: Pc, c: Choice)
    ensures ThreadStep(capacity, m, pc, c).0.orphans == m.orphans
  {
    if pc.Making? { MakeOrphans(capacity, m, pc.pkt, pc.key, pc.flow, pc.stage, c); }
    else if pc.Inside? { InsideOrphans(m, pc.pkt, pc.key, pc.at, c); }
  }

  lemma MakeOrphans(capacity: nat, m: Maps, pkt: Packet, k: FlowKey, f: FlowState, st: Stage, c: Choice)
    ensures MakeStep(capacity, m, pkt, k, f, st, c).0.orphans == m.orphans
  {
  }

  lemma InsideOrphans(m: Maps, pkt: Packet, k: FlowKey, at: Spot, c: Choice)
    ensures InsideStep(m, pkt, k, at, c).0.orphans == m.orphans
  {
  }

  lemma HostOrphans(m: Maps, op: DeleteOp, at: Phase, c: HostChoice)
    ensures var m' := HostStep(m, Busy(op, at), c).0;
            m'.orphans <= m.orphans || ((at.CheckIndex? || at.RemoveIndex?) && m'.orphans == m.orphans + {op.key})
  {
  }

  lemma HostNewOrphan(m: Maps, h: Host, c: HostChoice, k: FlowKey)
    requires h.Busy? && HostOk(m, h) && k !in m.orphans && k in HostStep(m, h, c).0.orphans
    ensures Retired(HostStep(m, h, c).0, k)
  {
    HostOrphans(m, h.op, h.at, c);
    CleaningStates(m, h.op, h.at, c);
  }

  lemma NewOrphan(s: System, s': System, k: FlowKey)
    requires HostOk(s.m, s.host) && Next(s, s') && k !in s.m.orphans && k in s'.m.orphans
    ensures Retired(s'.m, k)
  {
    var a :| Enabled(s, a) && Targeted(s, a) && s' == Apply(s, a);
    if a.Run? { ThreadOrphans(s.capacity, s.m, s.threads[a.p], a.c); }
    if a.HostRun? { HostNewOrphan(s.m, s.host, a.hc, k); }
  }

  lemma CleaningStates(m: Maps, op: DeleteOp, at: Phase, c: HostChoice)
    requires at.CheckIndex? || at.RemoveIndex?
    ensures var m' := HostStep(m, Busy(op, at), c).0; m'.states == m.states && m'.settled == m.settled
  {
  }

  /** Only deleted generations have orphaned entries. */
  lemma {:induction false} OrphanRetired(run: seq<System>, i: nat, k: FlowKey)
    requires IsRun(run) && i < |run| && k in run[i].m.orphans
    ensures Retired(run[i].m, k)
  {
    if i > 0 {
      OwnedAlways(run, i - 1);
      var s, s' := run[i - 1], run[i];
      assert StepAt(run, i - 1);
      if k in s.m.orphans {
        OrphanRetired(run, i - 1, k);
        RetiredStep(s, s', k);
      } else {
        NewOrphan(s, s', k);
      }
    }
  }

  /** Between deletes an index entry names a live flow of its tuple exactly if no map fault orphaned it. */
  lemma EntryNamesLiveState(run: seq<System>, i: nat, t: TupleKey)
    requires IsRun(run) && i < |run| && run[i].host.Waiting? && t in run[i].m.index
    ensures var k := run[i].m.index[t];
            (k in run[i].m.states && HasTuple(run[i].m.states[k], t)) <==> k !in run[i].m.orphans
  {
    OwnedAlways(run, i);
    var k := run[i].m.index[t];
    assert KeyOk(run[i].m, run[i].host, k);
    if k in run[i].m.orphans { OrphanRetired(run, i, k); }
  }

  /** An entry is taken away only by the creator or the delete of the generation it names. */
  lemma EntryRemovedByOwner(run: seq<System>, i: nat, t: TupleKey, k: FlowKey)
    requires IsRun(run) && i + 1 < |run|
    requires Names(run[i].m, t, k) && !Names(run[i + 1].m, t, k)
    ensures (exists p :: p in run[i].threads && OwnKey(run[i].threads[p]) == Some(k))
         || (run[i].host.Busy? && run[i].host.op.key == k && Retired(run[i].m, k))
  {
    OwnedAlways(run, i);
    var s, s' := run[i], run[i + 1];
    assert StepAt(run, i);
    var a :| Enabled(s, a) && Targeted(s, a) && s' == Apply(s, a);
    match a
    case Run(p, c) =>
      ThreadStepFrame(s, p, c);
      assert OwnKey(s.threads[p]) != Some(k) ==> Untouched(s.m, s'.m, k);
    case HostRun(c) =>
      HostStepFrame(s, c);
      assert k != s.host.op.key ==> Untouched(s.m, s'.m, k);
      IndexShrinks(s.m, s.host.op, s.host.at, c);
    case _ =>
  }

  /** The host only ever takes index entries away. */
  lemma IndexShrinks(m: Maps, op: DeleteOp, at: Phase, c: HostChoice)
    ensures var m' := HostStep(m, Busy(op, at), c).0;
            m'.index == m.index || (at.RemoveIndex? && at.keys != [] && m'.index == m.index - {at.keys[0]})
  {
  }

  // ----- Rewriting -----

  lemma TuplesFixedStep(s: System, s': System, k: FlowKey)
    requires Owned(s) && Next(s, s')
    requires k in s.m.settled && k in s.m.states && k in s'.m.states
    ensures SameTuples(s.m.states[k], s'.m.states[k])
  {
    var a :| Enabled(s, a) && Targeted(s, a) && s' == Apply(s, a);
    match a
    case Run(p, c) =>
      ThreadStepFrame(s, p, c);
      assert ThreadOk(s.m, s.threads[p]);
      assert Untouched(s.m, s'.m, k);
    case HostRun(c) =>
      HostStepFrame(s, c);
      if k != s.host.op.key { assert Untouched(s.m, s'.m, k); }
    case _ =>
  }

  /** A flow keeps its snapped tuples for as long as it lives. */
  lemma {:induction false} TuplesFixed(run: seq<System>, i: nat, j: nat, k: FlowKey)
    requires IsRun(run) && i <= j < |run|
    requires IsActive(run[i].m, k) && k in run[j].m.states
    ensures SameTuples(run[i].m.states[k], run[j].m.states[k])
  {
    OwnedAlways(run, i);
    assert KeyOk(run[i].m, run[i].host, k);
    if i < j {
      SettledRun(run, i, j - 1);
      if k !in run[j - 1].m.states { RetiredForever(run, j - 1, j, k); }
      TuplesFixed(run, i, j - 1, k);
      OwnedAlways(run, j - 1);
      assert StepAt(run, j - 1);
      TuplesFixedStep(run[j - 1], run[j], k);
    }
  }

  lemma {:induction false} SettledRun(run: seq<System>, i: nat, j: nat)
    requires IsRun(run) && i <= j < |run|
    ensures run[i].m.settled <= run[j].m.settled
  {
    if i < j {
      SettledRun(run, i, j - 1);
      OwnedAlways(run, j - 1);
      assert StepAt(run, j - 1);
      SettledStep(run[j - 1], run[j]);
    }
  }

  /** A packet about to be rewritten is inside a live flow that carries its tuple. */
  lemma RewritingIsLive(run: seq<System>, i: nat, p: nat)
    requires IsRun(run) && i < |run| && p in run[i].threads
    requires run[i].threads[p].Inside? && run[i].threads[p].at.Rewriting?
    ensures var pc := run[i].threads[p];
            IsActive(run[i].m, pc.key) && HasTuple(run[i].m.states[pc.key], pc.pkt.tuple)
  {
    ExcludedAlways(run, i);
    assert ThreadOk(run[i].m, run[i].threads[p]) && PassOk(run[i].m, run[i].host, run[i].threads[p]);
  }

  /**
   * Round trip: a forward packet of the original tuple leaves with the snapped target; while that flow
   * lives, the reply to what left is recognised as the same flow and restored to the swap of the original.
   */
  lemma RewriteRoundTrip(run: seq<System>, i: nat, j: nat, p: nat, q: nat)
    requires IsRun(run) && i <= j < |run| && p in run[i].threads && q in run[j].threads
    requires run[i].threads[p].Inside? && run[i].threads[p].at.Rewriting?
    requires run[j].threads[q].Inside? && run[j].threads[q].at.Rewriting?
    requires var k, pkt := run[i].threads[p].key, run[i].threads[p].pkt;
             && pkt.ingress
             && (k in run[i].m.states ==> pkt.tuple == run[i].m.states[k].original)
             && k in run[j].m.states
             && (k in run[i].m.states ==>
                   run[j].threads[q].pkt == Packet(Swap(Rewritten(run[i].m.states[k], pkt)), false))
    ensures var k, k', pkt := run[i].threads[p].key, run[j].threads[q].key, run[i].threads[p].pkt;
            && k in run[i].m.states && k' == k
            && Rewritten(run[i].m.states[k], pkt) == run[i].m.states[k].target
            && Swap(run[i].m.states[k].target) == run[i].m.states[k].reverse
            && Rewritten(run[j].m.states[k], run[j].threads[q].pkt) == Swap(pkt.tuple)
  {
    var k, k' := run[i].threads[p].key, run[j].threads[q].key;
    RewritingIsLive(run, i, p);
    RewritingIsLive(run, j, q);
    OwnedAlways(run, i);
    OwnedAlways(run, j);
    assert KeyOk(run[i].m, run[i].host, k);
    TuplesFixed(run, i, j, k);
    assert KeyOk(run[j].m, run[j].host, k) && KeyOk(run[j].m, run[j].host, k');
    SettledRun(run, i, j);
  }
}
