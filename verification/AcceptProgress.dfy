// No deferred request is lost: somebody always still has to look at it.
module AcceptProgress {
  import opened Prelude
  import opened ConditionalAccept
  import opened AcceptPairing
  import opened AcceptBalance

  predicate InChannel(results: map<nat, Result>, id: Id, n: nat) {
    n in results && results[n].id == id
  }

  /** A queued unit, a worker about to look or already on this attempt, a result under way,
      or a dying worker's shutdown. */
  ghost predicate Attended(g: Gate, w: Worker, inHand: Option<Result>,
                           results: map<nat, Result>, stops: map<nat, Stop>, id: Id)
  {
    || g.units > 0
    || w.at.Taken? || w.at == Snapped(id) || w.at == Working(id)
    || (w.held.Some? && w.held.value.id == id)
    || (inHand.Some? && inHand.value.id == id)
    || (exists n :: InChannel(results, id, n))
    || (w.at.Crashed? && w.at.stop in stops && stops[w.at.stop].at == Lock)
  }

  ghost predicate NotLost(s: System) {
    s.g.slot.Some? && s.g.slot.value.state == Deferred ==>
      Attended(s.g, s.worker, s.coord.result, s.results, s.stops, s.g.slot.value.id)
  }

  predicate EndsOk(s: System) {
    && (s.worker.at.Gone? ==> !s.g.accepting)
    && (s.coord.at.Exited? ==> !s.g.accepting)
    && (s.coord.at.Exiting? ==> s.coord.at.stop in s.stops)
  }

  ghost predicate Progressing(s: System) {
    NotLost(s) && EndsOk(s)
  }

  lemma ReceiveProgress(s: System, c: CoordChoice)
    requires Progressing(s) && s.coord.at.Receive? && CoordShape(s.coord)
    ensures Progressing(AcceptStep(s, c))
  {
    var s' := AcceptStep(s, c);
    if s.g.slot.Some? && s.results != map[] && c.ticket in s.results {
      var id := s.g.slot.value.id;
      if n :| InChannel(s.results, id, n) && n != c.ticket { assert InChannel(s'.results, id, n); }
    }
  }

  lemma ApplyProgress(s: System, c: CoordChoice)
    requires Progressing(s) && s.coord.at.Applying?
    ensures Progressing(AcceptStep(s, c))
  {
  }

  lemma CallProgress(s: System, c: CoordChoice)
    requires Progressing(s) && s.coord.at.Call?
    ensures Progressing(AcceptStep(s, c))
  {
  }

  /** What most coordinator steps do to the parts that matter here: at most they remove the slot. */
  predicate Quiet(s: System, s': System) {
    && s'.worker == s.worker && s'.results == s.results && s'.stops == s.stops
    && s'.coord.result == s.coord.result && s'.g.units == s.g.units && s'.g.accepting == s.g.accepting
    && (s'.g.slot == s.g.slot || s'.g.slot == None)
    && !s'.coord.at.Exited? && !s'.coord.at.Exiting?
  }

  lemma QuietProgress(s: System, s': System)
    requires Progressing(s) && Quiet(s, s')
    ensures Progressing(s')
  {
  }

  lemma ReturnFrame(s: System, c: CoordChoice)
    requires s.coord.at.Reset? || s.coord.at.Return? || s.coord.at.LoadAccepted?
    ensures Quiet(s, AcceptStep(s, c))
  {
  }

  lemma HandoffFrame(s: System, c: CoordChoice)
    requires s.coord.at.Take? || s.coord.at.ReleaseAdmission? || s.coord.at.SwapReserved?
    ensures Quiet(s, AcceptStep(s, c))
  {
  }

  lemma LeaveProgress(s: System, unused: nat)
    requires Progressing(s)
    ensures Progressing(Leave(s, unused))
  {
  }

  lemma EdgeProgress(s: System, c: CoordChoice)
    requires Progressing(s) && (s.coord.at.Top? || s.coord.at.Send?)
    ensures Progressing(AcceptStep(s, c))
  {
  }

  predicate Ending(at: CoordAt) {
    at.Judge? || at.Wait? || at.Exiting? || at.Exited?
  }

  lemma RejectFrame(s: System, c: CoordChoice)
    requires s.coord.at.LoadFailed? || s.coord.at.RejectClaimed? || s.coord.at.RejectActive?
    ensures Quiet(s, RejectStep(s, c))
  {
  }

  lemma ReleaseFrame(s: System, c: CoordChoice)
    requires s.coord.at.SwapBack? || s.coord.at.SubBack? || s.coord.at.ReleaseBack? || s.coord.at.TerminalCheck?
    ensures Quiet(s, RejectStep(s, c))
  {
  }

  lemma EndProgress(s: System, c: CoordChoice)
    requires Progressing(s) && Ending(s.coord.at)
    requires StopsOk(s.g, s.stops) && ClaimOk(s.g, s.coord)
    ensures Progressing(RejectStep(s, c))
  {
    LeaveProgress(s, c.unused);
  }

  lemma TakingProgress(s: System, c: CoordChoice)
    requires Progressing(s) && CoordShape(s.coord) && AcceptHalf(s.coord.at)
    ensures Progressing(AcceptStep(s, c))
  {
    var at := s.coord.at;
    if at.Receive? { ReceiveProgress(s, c); }
    else if at.Applying? { ApplyProgress(s, c); }
    else if at.Call? { CallProgress(s, c); }
    else if at.Top? || at.Send? { EdgeProgress(s, c); }
    else if at.Reset? || at.Return? || at.LoadAccepted? { ReturnFrame(s, c); QuietProgress(s, AcceptStep(s, c)); }
    else { HandoffFrame(s, c); QuietProgress(s, AcceptStep(s, c)); }
  }

  lemma RejectProgress(s: System, c: CoordChoice)
    requires Progressing(s) && ClaimOk(s.g, s.coord) && StopsOk(s.g, s.stops) && !AcceptHalf(s.coord.at)
    ensures Progressing(RejectStep(s, c))
  {
    var at := s.coord.at;
    if Ending(at) { EndProgress(s, c); }
    else if at.LoadFailed? || at.RejectClaimed? || at.RejectActive? {
      RejectFrame(s, c);
      QuietProgress(s, RejectStep(s, c));
    }
    else { ReleaseFrame(s, c); QuietProgress(s, RejectStep(s, c)); }
  }

  lemma LookProgress(s: System, success: bool, ticket: nat)
    requires Progressing(s) && WorkerShape(s.worker) && !s.worker.at.Working? && !s.worker.at.Sending?
    ensures Progressing(WorkerStep(s, success, ticket))
  {
  }

  lemma SendProgress(s: System, success: bool, ticket: nat)
    requires Progressing(s) && ClaimOk(s.g, s.coord) && WorkerShape(s.worker)
    requires s.worker.at.Working? || s.worker.at.Sending?
    ensures Progressing(WorkerStep(s, success, ticket))
  {
    var s' := WorkerStep(s, success, ticket);
    if s.g.slot.Some? && s.worker.at.Sending? && ticket !in s.results {
      var id := s.g.slot.value.id;
      if s.worker.held.Some? && s.worker.held.value.id == id && !s.coord.at.Exited? {
        assert InChannel(s'.results, id, ticket);
      } else if n :| InChannel(s.results, id, n) && !s.coord.at.Exited? && s.worker.held.Some? {
        assert InChannel(s'.results, id, n);
      }
    }
  }

  lemma StopProgress(s: System, i: nat)
    requires Progressing(s) && i in s.stops
    ensures Progressing(StopStep(s, i))
  {
    StopFrame(s, i);
    StopEnds(s, i);
  }

  lemma StopEnds(s: System, i: nat)
    requires i in s.stops
    ensures var s' := StopStep(s, i);
            && s'.stops.Keys == s.stops.Keys && (forall j :: j in s.stops && j != i ==> s'.stops[j] == s.stops[j])
            && (!s.g.accepting ==> !s'.g.accepting) && s'.g.units == s.g.units
            && (s.stops[i].at == Lock ==> s'.g.slot == None) && (s'.g.slot == None || s'.g.slot == s.g.slot)
  {
  }

  lemma CrashProgress(s: System, unused: nat)
    requires Progressing(s)
    ensures Progressing(CrashStep(s, unused))
    ensures unused !in s.stops ==> Progressing(s.(stops := s.stops[unused := Stop(Lock, None)]))
  {
  }

  lemma ConsumeProgress(s: System, o: nat, converted: bool)
    requires Progressing(s) && o in s.owners && s.owners[o].queued
    ensures Progressing(ConsumeStep(s, o, converted))
  {
  }

  lemma StepKeepsProgress(s: System, s': System)
    requires Progressing(s) && NextStep(s, s')
    requires ActorsPaired(s.book, s.g, s.coord, s.worker) && StopsOk(s.g, s.stops)
    ensures Progressing(s')
  {
    var a :| Enabled(s, a) && s' == Apply(s, a);
    if a.CoordRun? {
      if AcceptHalf(s.coord.at) { TakingProgress(s, a.c); } else { RejectProgress(s, a.c); }
    }
    else if a.WorkerRun? {
      if s.worker.at.Working? || s.worker.at.Sending? { SendProgress(s, a.success, a.ticket); }
      else { LookProgress(s, a.success, a.ticket); }
    }
    else if a.StopRun? { StopProgress(s, a.i); }
    else if a.Consume? { ConsumeProgress(s, a.o, a.converted); }
    else { CrashProgress(s, a.unused); }
  }

  lemma ProgressNext(run: seq<System>, i: nat)
    requires IsRun(run) && i + 1 < |run| && Progressing(run[i])
    ensures Progressing(run[i + 1])
  {
    ActorsAlways(run, i);
    BalancedAlways(run, i);
    var s, s' := run[i], run[i + 1];
    assert StepAt(run, i);
    StepKeepsProgress(s, s');
  }

  lemma {:induction false} ProgressAlways(run: seq<System>, i: nat)
    requires IsRun(run) && i < |run|
    ensures Progressing(run[i])
  {
    if i > 0 {
      ProgressAlways(run, i - 1);
      ProgressNext(run, i - 1);
    }
  }

  /** No lost deferred request: units left over from removed attempts never starve a later one. */
  lemma NoLostRequest(run: seq<System>, i: nat)
    requires IsRun(run) && i < |run|
    requires run[i].g.slot.Some? && run[i].g.slot.value.state == Deferred
    ensures run[i].g.accepting
    ensures Attended(run[i].g, run[i].worker, run[i].coord.result, run[i].results, run[i].stops, run[i].g.slot.value.id)
  {
    ActorsAlways(run, i);
    ProgressAlways(run, i);
  }
}
