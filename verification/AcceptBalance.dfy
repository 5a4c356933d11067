// Reservations, progress and shutdown of the conditional-accept machine.
module AcceptBalance {
  import opened Prelude
  import opened ConditionalAccept
  import opened AcceptPairing

  /** The coordinator holds an attempt whose admission is not yet released. */
  predicate Admits(at: CoordAt) {
    at.ReleaseAdmission? || at.SwapBack? || at.SubBack? || at.ReleaseBack?
  }

  function StopsHolding(stops: map<nat, Stop>): set<nat> {
    set i | i in stops && stops[i].taken.Some?
  }

  function StopsOwing(stops: map<nat, Stop>): set<nat> {
    set i | i in stops && stops[i].at == Owe
  }

  /** Admission pending is exactly the attempts created and not released. */
  ghost predicate PendingBalanced(g: Gate, at: CoordAt, stops: map<nat, Stop>) {
    g.pending == One(g.slot.Some?) + One(Admits(at)) + |StopsHolding(stops)|
  }

  /** Handoffs is exactly the live owners, the untransferred reservation and releases in progress. */
  ghost predicate HandoffsBalanced(g: Gate, owners: map<nat, Handoff>, at: CoordAt, stops: map<nat, Stop>) {
    g.handoffs == |owners| + One(g.reserved) + One(at.SubBack?) + |StopsOwing(stops)|
  }

  /** A shutdown is between its lock and its release of the reservation. */
  predicate Unwinding(stops: map<nat, Stop>, i: nat) {
    i in stops && (stops[i].at == Release || stops[i].at == Swap)
  }

  ghost predicate ReservedOk(g: Gate, at: CoordAt, stops: map<nat, Stop>) {
    g.reserved ==>
      || (g.slot.Some? && g.slot.value.state == Claimed)
      || at.ReleaseAdmission? || at.SwapReserved? || at.SwapBack?
      || exists i :: Unwinding(stops, i)
  }

  ghost predicate StopsOk(g: Gate, stops: map<nat, Stop>) {
    && (forall i :: i in stops && stops[i].at != Lock ==> !g.accepting)
    && (forall i :: i in stops && stops[i].taken.Some? ==> stops[i].at == Release)
  }

  ghost predicate Balanced(s: System) {
    && PendingBalanced(s.g, s.coord.at, s.stops)
    && HandoffsBalanced(s.g, s.owners, s.coord.at, s.stops)
    && s.g.pending <= s.limit && s.g.handoffs <= s.limit
    && ReservedOk(s.g, s.coord.at, s.stops)
    && StopsOk(s.g, s.stops)
  }

  lemma OneStopMoves(stops: map<nat, Stop>, i: nat, st: Stop)
    ensures |StopsHolding(stops[i := st])|
         == |StopsHolding(stops)| - One(i in stops && stops[i].taken.Some?) + One(st.taken.Some?)
    ensures |StopsOwing(stops[i := st])|
         == |StopsOwing(stops)| - One(i in stops && stops[i].at == Owe) + One(st.at == Owe)
  {
    SwapOne(StopsHolding(stops), StopsHolding(stops[i := st]), i);
    SwapOne(StopsOwing(stops), StopsOwing(stops[i := st]), i);
  }

  lemma CallKeepsBalance(s: System, c: CoordChoice)
    requires Balanced(s) && ClaimOk(s.g, s.coord) && s.coord.at.Call?
    ensures Balanced(AcceptStep(s, c))
  {
    assert forall i :: Unwinding(s.stops, i) ==> !s.g.accepting;
  }

  lemma ApplyKeepsBalance(s: System, c: CoordChoice)
    requires Balanced(s) && s.coord.at.Applying?
    ensures Balanced(AcceptStep(s, c))
  {
  }

  lemma EarlyKeepsBalance(s: System, c: CoordChoice)
    requires Balanced(s) && (s.coord.at.Receive? || s.coord.at.Reset? || s.coord.at.Return?)
    ensures Balanced(AcceptStep(s, c))
  {
  }

  lemma TakeKeepsBalance(s: System, c: CoordChoice)
    requires Balanced(s) && (s.coord.at.LoadAccepted? || s.coord.at.Take?)
    requires ClaimOk(s.g, s.coord)
    ensures Balanced(AcceptStep(s, c))
  {
  }

  lemma AdmissionKeepsBalance(s: System, c: CoordChoice)
    requires Balanced(s) && s.coord.at.ReleaseAdmission?
    ensures Balanced(AcceptStep(s, c))
  {
  }

  lemma SwapKeepsBalance(s: System, c: CoordChoice)
    requires Balanced(s) && s.coord.at.SwapReserved?
    requires ActorsPaired(s.book, s.g, s.coord, s.worker)
    ensures Balanced(AcceptStep(s, c))
  {
  }

  lemma RejectKeepsBalance(s: System, c: CoordChoice)
    requires s.coord.at.LoadFailed? || s.coord.at.RejectClaimed? || s.coord.at.RejectActive?
             || s.coord.at.TerminalCheck? || s.coord.at.Exiting?
    requires Balanced(s)
    requires ClaimOk(s.g, s.coord)
    ensures Balanced(RejectStep(s, c))
  {
  }

  lemma SwapBackKeepsBalance(s: System, c: CoordChoice)
    requires Balanced(s) && s.coord.at.SwapBack? && ActorsPaired(s.book, s.g, s.coord, s.worker)
    ensures Balanced(RejectStep(s, c))
  {
  }

  lemma ReleaseBackKeepsBalance(s: System, c: CoordChoice)
    requires Balanced(s) && s.coord.at.ReleaseBack? && ActorsPaired(s.book, s.g, s.coord, s.worker)
    ensures Balanced(RejectStep(s, c))
  {
  }

  lemma ReleaseKeepsBalance(s: System, c: CoordChoice)
    requires Balanced(s) && (s.coord.at.SwapBack? || s.coord.at.SubBack? || s.coord.at.ReleaseBack?)
    requires ActorsPaired(s.book, s.g, s.coord, s.worker)
    ensures Balanced(RejectStep(s, c))
  {
    if s.coord.at.SwapBack? { SwapBackKeepsBalance(s, c); }
    else if s.coord.at.ReleaseBack? { ReleaseBackKeepsBalance(s, c); }
  }

  lemma StopCounts(s: System, i: nat)
    requires Balanced(s) && i in s.stops
    ensures var s' := StopStep(s, i);
            && PendingBalanced(s'.g, s'.coord.at, s'.stops) && HandoffsBalanced(s'.g, s'.owners, s'.coord.at, s'.stops)
            && s'.g.pending <= s.g.pending && s'.g.handoffs <= s.g.handoffs && s'.limit == s.limit
  {
    OneStopMoves(s.stops, i, StopStep(s, i).stops[i]);
  }

  lemma StopsStayOk(s: System, i: nat)
    requires StopsOk(s.g, s.stops) && i in s.stops
    ensures var s' := StopStep(s, i); StopsOk(s'.g, s'.stops)
  {
  }

  lemma StopKeepsBalance(s: System, i: nat)
    requires Balanced(s) && i in s.stops
    ensures Balanced(StopStep(s, i))
  {
    StopCounts(s, i);
    StopReserved(s, i);
    StopsStayOk(s, i);
  }

  lemma StopReserved(s: System, i: nat)
    requires i in s.stops && ReservedOk(s.g, s.coord.at, s.stops)
    ensures var s' := StopStep(s, i); ReservedOk(s'.g, s'.coord.at, s'.stops)
  {
    var s' := StopStep(s, i);
    if s'.g.reserved {
      if s.stops[i].at == Lock || s.stops[i].at == Release {
        assert Unwinding(s'.stops, i);
      } else if j :| Unwinding(s.stops, j) {
        assert Unwinding(s'.stops, j);
      }
    }
  }

  /** Starting a shutdown changes no count. */
  lemma NewStopKeepsBalance(s: System, s': System, i: nat)
    requires Balanced(s) && i !in s.stops && s'.stops == s.stops[i := Stop(Lock, None)]
    requires s'.g == s.g && s'.owners == s.owners && s'.limit == s.limit
    requires s'.coord.at == s.coord.at || (s'.coord.at.Exiting? && !Admits(s.coord.at) && !s.coord.at.SwapReserved?)
    ensures Balanced(s')
  {
    OneStopMoves(s.stops, i, Stop(Lock, None));
    if j :| Unwinding(s.stops, j) { assert Unwinding(s'.stops, j); }
  }

  lemma DropKeepsBalance(s: System, o: nat)
    requires Balanced(s) && o in s.owners
    ensures Balanced(DropOwner(s, o))
  {
  }

  lemma SendKeepsBalance(s: System, c: CoordChoice)
    requires Balanced(s) && s.coord.at.Send?
    ensures Balanced(AcceptStep(s, c))
  {
    var o := s.coord.at.owner;
    if o in s.owners {
      DropKeepsBalance(s, o);
      var d := DropOwner(s, o);
      if c.unused !in s.stops { NewStopKeepsBalance(d, Leave(d, c.unused), c.unused); }
    }
  }

  lemma MoveKeepsBalance(s: System, at: CoordAt)
    requires Balanced(s) && !Admits(s.coord.at) && !s.coord.at.SwapReserved?
    requires !Admits(at) && !at.SwapReserved?
    ensures Balanced(s.(coord := s.coord.(at := at)))
  {
  }

  function LoopNext(at: CoordAt): CoordAt {
    if at.Top? then Receive else if at.Judge? then Wait else Top
  }

  lemma LoopMoves(s: System, c: CoordChoice)
    requires s.coord.at.Top? || s.coord.at.Judge? || s.coord.at.Wait? || s.coord.at.Exited?
    ensures var s' := CoordStep(s, c);
            s' == s || s' == Leave(s, c.unused) || s' == s.(coord := s.coord.(at := LoopNext(s.coord.at)))
  {
  }

  lemma LoopKeepsBalance(s: System, c: CoordChoice)
    requires Balanced(s) && (s.coord.at.Top? || s.coord.at.Judge? || s.coord.at.Wait? || s.coord.at.Exited?)
    ensures Balanced(CoordStep(s, c))
  {
    var at := LoopNext(s.coord.at);
    LoopMoves(s, c);
    if CoordStep(s, c) == Leave(s, c.unused) { LeaveKeepsBalance(s, c.unused); }
    else if CoordStep(s, c) != s { MoveKeepsBalance(s, at); }
  }

  lemma LeaveKeepsBalance(s: System, unused: nat)
    requires Balanced(s) && !Admits(s.coord.at) && !s.coord.at.SwapReserved?
    ensures Balanced(Leave(s, unused))
  {
    if unused !in s.stops { NewStopKeepsBalance(s, Leave(s, unused), unused); }
  }

  lemma CoordKeepsBalance(s: System, c: CoordChoice)
    requires Balanced(s) && ActorsPaired(s.book, s.g, s.coord, s.worker)
    ensures Balanced(CoordStep(s, c))
  {
    var at := s.coord.at;
    if at.Top? || at.Judge? || at.Wait? || at.Exited? { LoopKeepsBalance(s, c); }
    else if at.Applying? { ApplyKeepsBalance(s, c); }
    else if at.Receive? || at.Reset? || at.Return? { EarlyKeepsBalance(s, c); }
    else if at.Call? { CallKeepsBalance(s, c); }
    else if at.LoadAccepted? || at.Take? { TakeKeepsBalance(s, c); }
    else if at.ReleaseAdmission? { AdmissionKeepsBalance(s, c); }
    else if at.SwapReserved? { SwapKeepsBalance(s, c); }
    else if at.Send? { SendKeepsBalance(s, c); }
    else if at.SwapBack? || at.SubBack? || at.ReleaseBack? { ReleaseKeepsBalance(s, c); }
    else { RejectKeepsBalance(s, c); }
  }

  predicate TakesUnits(s: System, s': System) {
    && s'.g == s.g.(units := s'.g.units) && s'.stops == s.stops && s'.owners == s.owners
    && s'.coord == s.coord && s'.limit == s.limit
  }

  lemma ConnectFrame(s: System, success: bool, ticket: nat)
    requires s.worker.at.Working? || s.worker.at.Sending?
    ensures TakesUnits(s, WorkerStep(s, success, ticket))
  {
  }

  /** The worker takes units and nothing else from the gate. */
  lemma WorkerFrame(s: System, success: bool, ticket: nat)
    ensures TakesUnits(s, WorkerStep(s, success, ticket))
  {
    if s.worker.at.Working? || s.worker.at.Sending? { ConnectFrame(s, success, ticket); }
    else { PollFrame(s, success, ticket); }
  }

  lemma WorkerKeepsBalance(s: System, success: bool, ticket: nat)
    requires Balanced(s)
    ensures Balanced(WorkerStep(s, success, ticket))
  {
    WorkerFrame(s, success, ticket);
  }

  lemma StepKeepsBalance(s: System, s': System)
    requires Balanced(s) && ActorsPaired(s.book, s.g, s.coord, s.worker) && NextStep(s, s')
    ensures Balanced(s')
  {
    var a :| Enabled(s, a) && s' == Apply(s, a);
    match a
    case CoordRun(c) => CoordKeepsBalance(s, c);
    case WorkerRun(success, ticket) => WorkerKeepsBalance(s, success, ticket);
    case WorkerCrash(i) => if s' != s { NewStopKeepsBalance(s, s', i); }
    case Shutdown(i) => NewStopKeepsBalance(s, s', i);
    case StopRun(i) => StopKeepsBalance(s, i);
    case Consume(o, converted) => DropKeepsBalance(s, o);
  }

  lemma InitBalanced(s: System)
    requires Init(s)
    ensures Balanced(s)
  {
    assert StopsHolding(s.stops) == {} && StopsOwing(s.stops) == {};
  }

  lemma ActorsAlways(run: seq<System>, i: nat)
    requires IsRun(run) && i < |run|
    ensures ActorsPaired(run[i].book, run[i].g, run[i].coord, run[i].worker)
  {
    PairedAlways(run, i);
  }

  lemma BalancedNext(run: seq<System>, i: nat)
    requires IsRun(run) && i + 1 < |run| && Balanced(run[i])
    ensures Balanced(run[i + 1])
  {
    ActorsAlways(run, i);
    var s, s' := run[i], run[i + 1];
    assert StepAt(run, i);
    StepKeepsBalance(s, s');
  }

  lemma {:induction false} BalancedAlways(run: seq<System>, i: nat)
    requires IsRun(run) && i < |run|
    ensures Balanced(run[i])
  {
    if i == 0 {
      InitBalanced(run[0]);
    } else {
      BalancedAlways(run, i - 1);
      BalancedNext(run, i - 1);
    }
  }

  /** Reservation balance: both counters are exact and within 0..limit in every state of every run. */
  lemma ReservationBalance(run: seq<System>, i: nat)
    requires IsRun(run) && i < |run|
    ensures PendingBalanced(run[i].g, run[i].coord.at, run[i].stops)
    ensures HandoffsBalanced(run[i].g, run[i].owners, run[i].coord.at, run[i].stops)
    ensures 0 <= run[i].g.pending <= run[i].limit && 0 <= run[i].g.handoffs <= run[i].limit
  {
    BalancedAlways(run, i);
  }

  // ----- Shutdown -----

  predicate AllStopped(s: System) {
    && s.coord.at.Exited?
    && forall i :: i in s.stops ==> s.stops[i].at == Done
  }

  lemma CallStaysShut(s: System, c: CoordChoice)
    requires s.coord.at.Call? || s.coord.at.Applying? || s.coord.at.Send? || s.coord.at.Top?
    ensures AcceptStep(s, c).g.accepting == s.g.accepting
  {
  }

  lemma AcceptStaysShut(s: System, c: CoordChoice)
    requires AcceptHalf(s.coord.at)
    ensures AcceptStep(s, c).g.accepting == s.g.accepting
  {
    if s.coord.at.Call? || s.coord.at.Applying? || s.coord.at.Send? || s.coord.at.Top? { CallStaysShut(s, c); }
  }

  lemma ReleaseStaysShut(s: System, c: CoordChoice)
    requires s.coord.at.SwapBack? || s.coord.at.SubBack? || s.coord.at.ReleaseBack? || s.coord.at.TerminalCheck?
    ensures RejectStep(s, c).g.accepting == s.g.accepting
  {
  }

  lemma RejectStaysShut(s: System, c: CoordChoice)
    ensures RejectStep(s, c).g.accepting == s.g.accepting
  {
    var at := s.coord.at;
    if at.SwapBack? || at.SubBack? || at.ReleaseBack? || at.TerminalCheck? { ReleaseStaysShut(s, c); }
  }

  lemma AcceptingStep(s: System, s': System)
    requires NextStep(s, s') && !s.g.accepting
    ensures !s'.g.accepting
  {
    var a :| Enabled(s, a) && s' == Apply(s, a);
    match a
    case CoordRun(c) => if AcceptHalf(s.coord.at) { AcceptStaysShut(s, c); } else { RejectStaysShut(s, c); }
    case WorkerRun(success, ticket) => WorkerFrame(s, success, ticket);
    case _ =>
  }

  lemma {:induction false} NeverAcceptsAgain(run: seq<System>, i: nat, j: nat)
    requires IsRun(run) && i <= j < |run| && !run[i].g.accepting
    ensures !run[j].g.accepting
  {
    if i < j {
      NeverAcceptsAgain(run, i, j - 1);
      assert StepAt(run, j - 1);
      AcceptingStep(run[j - 1], run[j]);
    }
  }

  /** After any shutdown has taken the lock the slot stays empty and no callback installs or accepts an attempt. */
  lemma ShutdownLinearizes(run: seq<System>, i: nat, j: nat, stop: nat, tuple: Option<Tuple>, locked: bool)
    requires IsRun(run) && i <= j < |run|
    requires stop in run[i].stops && run[i].stops[stop].at != Lock
    ensures !run[j].g.accepting && run[j].g.slot == None
    ensures var (g', v) := Callback(run[j].limit, run[j].g, Listening(run[j].worker), tuple, locked);
            v == Reject && g'.slot == None
  {
    BalancedAlways(run, i);
    NeverAcceptsAgain(run, i, j);
    ActorsAlways(run, j);
  }

  /** Once the threads have ended, the counters are exactly the handoffs still alive. */
  lemma ShutdownReleasesEverything(run: seq<System>, i: nat, stop: nat)
    requires IsRun(run) && i < |run| && AllStopped(run[i]) && stop in run[i].stops
    ensures run[i].g.pending == 0
    ensures run[i].g.handoffs == |run[i].owners|
  {
    BalancedAlways(run, i);
    ActorsAlways(run, i);
    var s := run[i];
    assert StopsHolding(s.stops) == {} && StopsOwing(s.stops) == {};
    assert s.stops[stop].at != Lock;
  }
}
