// A delete that reports completion, at once or on a retry, leaves nothing of its generation.
module FlowCleanup {
  import opened FlowMaps
  import opened PacketPath
  import opened HostOperation
  import opened FlowSystem
  import opened FlowOwnership
  import opened FlowOwnershipSteps
  import opened FlowTheorems
  import opened FlowExclusion

  ghost predicate Cleared(m: Maps, k: FlowKey) {
    Retired(m, k) && forall t :: t in m.index ==> m.index[t] != k
  }

  /** Neither an error, nor a mismatch, nor a request to retry. */
  predicate Complete(r: Report) {
    r.Report? && !r.partial && !r.mismatch
  }

  ghost predicate ProgressClear(m: Maps, h: Host) {
    h.Busy? ==>
      match h.at
      case CheckIndex(_, prog) => prog.faulted ==> prog.partial
      case RemoveIndex(_, prog) => prog.faulted ==> prog.partial
      case RemoveFlight(prog) => prog.partial || Cleared(m, h.op.key)
      case ReadPending(prog) => prog.partial || Cleared(m, h.op.key)
      case Publish(prog) => prog.partial || Cleared(m, h.op.key)
      case RemoveGuard(r, _) => Complete(r) ==> Cleared(m, h.op.key)
      case RemoveOutcome(r, _) => Complete(r) ==> Cleared(m, h.op.key)
      case _ => true
  }

  ghost predicate FinishedClear(m: Maps) {
    forall f :: f in m.finished && Complete(f.report) ==> Cleared(m, f.op.key)
  }

  lemma ClearedByThread(s: System, p: nat, c: Choice, k: FlowKey)
    requires Owned(s) && p in s.threads && Cleared(s.m, k)
    ensures Cleared(Apply(s, Run(p, c)).m, k)
  {
    ThreadStepFrame(s, p, c);
    assert ThreadOk(s.m, s.threads[p]);
    assert Untouched(s.m, Apply(s, Run(p, c)).m, k);
  }

  lemma ClearedByHost(s: System, c: HostChoice, k: FlowKey)
    requires Owned(s) && s.host.Busy? && Cleared(s.m, k)
    ensures Cleared(Apply(s, HostRun(c)).m, k)
  {
    var m' := HostStep(s.m, s.host, c).0;
    HostStepFrame(s, c);
    if k == s.host.op.key {
      IndexShrinks(s.m, s.host.op, s.host.at, c);
    } else {
      assert Untouched(s.m, m', k);
    }
  }

  lemma OpenProgress(m: Maps, h: Host, c: HostChoice)
    requires h.Busy? && (Opening(h.at) || Committing(h.at)) && HostOk(m, h)
    ensures var (m', h') := HostStep(m, h, c);
            && ProgressClear(m', h')
            && (h'.Waiting? ==> |m'.finished| > 0 && !Complete(m'.finished[|m'.finished| - 1].report))
  {
  }

  lemma CleanProgress(m: Maps, h: Host, c: HostChoice)
    requires h.Busy? && (h.at.CheckIndex? || h.at.RemoveIndex?) && HostOk(m, h) && ProgressClear(m, h)
    ensures var (m', h') := HostStep(m, h, c);
            ProgressClear(m', h') && h'.Busy?
  {
  }

  predicate Concluding(at: Phase) {
    at.RemoveFlight? || at.ReadPending? || at.Publish? || at.RemoveGuard? || at.RemoveOutcome?
  }

  lemma ConcludingTables(m: Maps, op: DeleteOp, at: Phase, c: HostChoice)
    requires Concluding(at)
    ensures var m' := CloseStep(m, op, at, c).0;
            m'.index == m.index && m'.states == m.states && m'.settled == m.settled
  {
  }

  /** What the host claims when it returns: the phase's own claim, or an entry of the log. */
  ghost predicate ClaimClear(m: Maps, m': Maps, op: DeleteOp, h': Host) {
    if h'.Busy? then h'.op == op && ProgressClear(m, h')
    else |m'.finished| > 0 && var f := m'.finished[|m'.finished| - 1];
         f.op == op && (Complete(f.report) ==> Cleared(m, op.key))
  }

  lemma PublishClaim(m: Maps, op: DeleteOp, at: Phase, c: HostChoice)
    requires (at.RemoveFlight? || at.ReadPending? || at.Publish?) && (at.prog.partial || Cleared(m, op.key))
    ensures var (m', h') := CloseStep(m, op, at, c); ClaimClear(m, m', op, h')
  {
  }

  lemma RestoreClaim(m: Maps, op: DeleteOp, at: Phase, c: HostChoice)
    requires (at.RemoveGuard? || at.RemoveOutcome?) && (Complete(at.report) ==> Cleared(m, op.key))
    ensures var (m', h') := CloseStep(m, op, at, c); ClaimClear(m, m', op, h')
  {
  }

  lemma CloseProgress(m: Maps, h: Host, c: HostChoice)
    requires h.Busy? && Concluding(h.at) && ProgressClear(m, h)
    ensures var (m', h') := HostStep(m, h, c);
            && m'.index == m.index && m'.states == m.states && m'.settled == m.settled
            && ClaimClear(m, m', h.op, h')
  {
    ConcludingTables(m, h.op, h.at, c);
    if h.at.RemoveGuard? || h.at.RemoveOutcome? { RestoreClaim(m, h.op, h.at, c); }
    else { PublishClaim(m, h.op, h.at, c); }
  }

  lemma HostKeepsClear(s: System, c: HostChoice)
    requires Owned(s) && s.host.Busy? && ProgressClear(s.m, s.host) && FinishedClear(s.m)
    ensures var s' := Apply(s, HostRun(c));
            ProgressClear(s'.m, s'.host) && FinishedClear(s'.m)
  {
    var (m', h') := HostStep(s.m, s.host, c);
    if Opening(s.host.at) || Committing(s.host.at) { OpenProgress(s.m, s.host, c); }
    else if s.host.at.CheckIndex? || s.host.at.RemoveIndex? { CleanProgress(s.m, s.host, c); }
    else { CloseProgress(s.m, s.host, c); }
    FinishedGrows(s.m, s.host.op, s.host.at, c);
    forall f | f in m'.finished && Complete(f.report) ensures Cleared(m', f.op.key) {
      if f in s.m.finished {
        ClearedByHost(s, c, f.op.key);
      } else {
        assert m'.finished == m'.finished[..|s.m.finished|] + [m'.finished[|s.m.finished|]];
        ClearedByHost(s, c, s.host.op.key);
      }
    }
  }

  lemma ThreadKeepsClear(s: System, p: nat, c: Choice)
    requires Owned(s) && p in s.threads && ProgressClear(s.m, s.host) && FinishedClear(s.m)
    ensures var s' := Apply(s, Run(p, c));
            ProgressClear(s'.m, s'.host) && FinishedClear(s'.m)
  {
    var s' := Apply(s, Run(p, c));
    assert ThreadOk(s.m, s.threads[p]);
    ThreadEffect(s.capacity, s.m, s.threads[p], c);
    if s.host.Busy? && Cleared(s.m, s.host.op.key) { ClearedByThread(s, p, c, s.host.op.key); }
    forall f | f in s'.m.finished && Complete(f.report) ensures Cleared(s'.m, f.op.key) {
      ClearedByThread(s, p, c, f.op.key);
    }
  }

  lemma {:induction false} ClearAlways(run: seq<System>, i: nat)
    requires IsRun(run) && i < |run|
    ensures ProgressClear(run[i].m, run[i].host) && FinishedClear(run[i].m)
  {
    if i > 0 {
      ClearAlways(run, i - 1);
      OwnedAlways(run, i - 1);
      var s, s' := run[i - 1], run[i];
      assert StepAt(run, i - 1);
      var a :| Enabled(s, a) && Targeted(s, a) && s' == Apply(s, a);
      match a
      case Run(p, c) => ThreadKeepsClear(s, p, c);
      case HostRun(c) => HostKeepsClear(s, c);
      case _ =>
    }
  }

  /** A completed delete, first attempt or retry, leaves no state and no index entry, then or later. */
  lemma CompleteDeleteLeavesNothing(run: seq<System>, i: nat, f: Finished)
    requires IsRun(run) && i < |run| && f in run[i].m.finished && Complete(f.report)
    ensures f.op.key !in run[i].m.states
    ensures forall t :: t in run[i].m.index ==> run[i].m.index[t] != f.op.key
  {
    ClearAlways(run, i);
  }
}
