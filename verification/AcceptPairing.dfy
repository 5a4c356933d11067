// Claims and pairing: one claimed attempt at a time, and every handoff joins the client
// accepted for an attempt with the socket preconnected for the same attempt.
module AcceptPairing {
  import opened Prelude
  import opened ConditionalAccept

  predicate HoldsClient(at: CoordAt) {
    at.LoadAccepted? || at.Take? || at.ReleaseAdmission? || at.SwapReserved?
  }

  predicate HoldsSlot(at: CoordAt) {
    at.ReleaseAdmission? || at.SwapReserved? || at.SwapBack? || at.SubBack? || at.ReleaseBack?
  }

  /** What the coordinator owns is decided by where it is. */
  predicate CoordShape(c: Coord) {
    && (c.result.Some? <==> c.at.Applying?)
    && (c.client.Some? <==> HoldsClient(c.at))
    && (c.taken.Some? <==> HoldsSlot(c.at))
  }

  predicate WorkerShape(w: Worker) {
    w.held.Some? <==> w.at.Sending?
  }

  /** Between the callback and the removal of the attempt it claimed. */
  predicate Deciding(at: CoordAt) {
    at.Return? || at.LoadAccepted? || at.Take? || at.LoadFailed?
  }

  predicate ClaimOk(g: Gate, c: Coord) {
    && g.nextGeneration >= 1
    && (g.slot.Some? ==> g.accepting && 1 <= g.slot.value.id.generation < g.nextGeneration)
    && (c.at.Call? ==> g.acceptedGeneration == 0)
    && (Deciding(c.at) ==>
          if c.claimed.Some? then 1 <= g.acceptedGeneration == c.claimed.value.generation
          else g.acceptedGeneration == 0)
    && (c.at.Take? ==> c.generation == g.acceptedGeneration != 0)
    && (g.slot.Some? && g.slot.value.state == Claimed ==>
          && (Deciding(c.at) || c.at.RejectClaimed?)
          && c.claimed == Some(g.slot.value.id)
          && (c.at.RejectClaimed? ==> c.generation == g.slot.value.id.generation))
  }

  predicate SlotPaired(b: Book, slot: Slot) {
    && (slot.state == Ready || slot.state == Claimed ==> slot.prepared.Some?)
    && (slot.prepared.Some? ==> slot.prepared.value in b.preconnected && b.preconnected[slot.prepared.value] == slot.id)
  }

  predicate ResultPaired(b: Book, r: Result) {
    r.socket.Some? ==> r.socket.value in b.preconnected && b.preconnected[r.socket.value] == r.id
  }

  predicate HandoffPaired(b: Book, h: Handoff) {
    && h.outbound in b.preconnected && b.preconnected[h.outbound] == h.id
    && h.client in b.acceptedFor && b.acceptedFor[h.client] == h.id
  }

  ghost predicate SocketsFresh(b: Book) {
    && (forall x :: x in b.preconnected ==> x < b.next)
    && (forall x :: x in b.acceptedFor ==> x < b.next)
  }

  ghost predicate CoordPaired(b: Book, c: Coord) {
    && (c.result.Some? ==> ResultPaired(b, c.result.value))
    && (c.client.Some? && c.claimed.Some? ==>
          c.client.value in b.acceptedFor && b.acceptedFor[c.client.value] == c.claimed.value)
    && (c.at.Take? || c.at.ReleaseAdmission? || c.at.SwapReserved? ==> c.claimed.Some?)
    && ((c.at.ReleaseAdmission? || c.at.SwapReserved?) && c.taken.Some? ==>
          c.claimed == Some(c.taken.value.id) && c.taken.value.prepared.Some? && SlotPaired(b, c.taken.value))
  }

  /** The attempt slot, the coordinator and the worker. */
  ghost predicate ActorsPaired(b: Book, g: Gate, c: Coord, w: Worker) {
    && CoordShape(c) && WorkerShape(w)
    && ClaimOk(g, c)
    && (g.slot.Some? ==> SlotPaired(b, g.slot.value))
    && CoordPaired(b, c)
    && (w.held.Some? ==> ResultPaired(b, w.held.value))
  }

  ghost predicate ResultsPaired(b: Book, results: map<nat, Result>) {
    forall n :: n in results ==> ResultPaired(b, results[n])
  }

  ghost predicate OwnersPaired(b: Book, owners: map<nat, Handoff>) {
    forall o :: o in owners ==> HandoffPaired(b, owners[o])
  }

  ghost predicate DeliveredPaired(b: Book) {
    forall i :: 0 <= i < |b.delivered| ==> HandoffPaired(b, b.delivered[i])
  }

  ghost predicate Paired(s: System) {
    && SocketsFresh(s.book)
    && ActorsPaired(s.book, s.g, s.coord, s.worker)
    && ResultsPaired(s.book, s.results)
    && OwnersPaired(s.book, s.owners)
    && DeliveredPaired(s.book)
  }

  lemma ReceiveKeeps(s: System, c: CoordChoice)
    requires Paired(s) && (s.coord.at.Top? || s.coord.at.Receive?)
    ensures Paired(AcceptStep(s, c))
  {
  }

  lemma ApplyKeeps(s: System, c: CoordChoice)
    requires Paired(s) && (s.coord.at.Applying? || s.coord.at.Reset?)
    ensures Paired(AcceptStep(s, c))
  {
  }

  lemma CallKeeps(s: System, c: CoordChoice)
    requires Paired(s) && s.coord.at.Call?
    ensures Paired(AcceptStep(s, c))
  {
  }

  /** A new socket number disturbs no record. */
  lemma ReturnKeeps(s: System, c: CoordChoice)
    requires Paired(s) && s.coord.at.Return?
    ensures Paired(AcceptStep(s, c))
  {
  }

  /** Taking the attempt touches only the gate, the coordinator and the closed sockets. */
  lemma TakeFrame(s: System, c: CoordChoice)
    requires s.coord.at.LoadAccepted? || s.coord.at.Take? || s.coord.at.ReleaseAdmission?
    ensures var s' := AcceptStep(s, c);
            s'.book == s.book && s'.owners == s.owners && s'.worker == s.worker && s'.results == s.results
  {
  }

  lemma LoadActors(s: System, c: CoordChoice)
    requires ActorsPaired(s.book, s.g, s.coord, s.worker) && (s.coord.at.LoadAccepted? || s.coord.at.ReleaseAdmission?)
    ensures var s' := AcceptStep(s, c); ActorsPaired(s.book, s'.g, s'.coord, s.worker)
  {
  }

  lemma TakeActors(s: System, c: CoordChoice)
    requires ActorsPaired(s.book, s.g, s.coord, s.worker) && s.coord.at.Take?
    ensures var s' := AcceptStep(s, c); ActorsPaired(s.book, s'.g, s'.coord, s.worker)
  {
  }

  lemma TakeKeeps(s: System, c: CoordChoice)
    requires Paired(s) && (s.coord.at.LoadAccepted? || s.coord.at.Take? || s.coord.at.ReleaseAdmission?)
    ensures Paired(AcceptStep(s, c))
  {
    TakeFrame(s, c);
    if s.coord.at.Take? { TakeActors(s, c); } else { LoadActors(s, c); }
  }

  lemma SwapKeeps(s: System, c: CoordChoice)
    requires Paired(s) && s.coord.at.SwapReserved?
    ensures Paired(AcceptStep(s, c))
  {
  }

  lemma SendFrame(s: System, c: CoordChoice)
    requires s.coord.at.Send?
    ensures var s' := AcceptStep(s, c);
            && s'.book == s.book && s'.worker == s.worker && s'.results == s.results
            && (OwnersPaired(s.book, s.owners) ==> OwnersPaired(s.book, s'.owners))
  {
  }

  lemma SendActors(s: System, c: CoordChoice)
    requires ActorsPaired(s.book, s.g, s.coord, s.worker) && s.coord.at.Send?
    ensures var s' := AcceptStep(s, c); ActorsPaired(s.book, s'.g, s'.coord, s.worker)
  {
  }

  lemma SendKeeps(s: System, c: CoordChoice)
    requires Paired(s) && s.coord.at.Send?
    ensures Paired(AcceptStep(s, c))
  {
    SendFrame(s, c);
    SendActors(s, c);
  }

  predicate RejectsOnly(s: System, s': System) {
    && s'.book == s.book && s'.owners == s.owners && s'.worker == s.worker
    && (s'.results == s.results || s'.results == map[])
  }

  lemma EndFrame(s: System, c: CoordChoice)
    requires s.coord.at.TerminalCheck? || s.coord.at.Judge? || s.coord.at.Wait?
             || s.coord.at.Exiting? || s.coord.at.Exited?
    ensures RejectsOnly(s, RejectStep(s, c))
  {
  }

  /** Rejecting touches only the slot, the counters and the coordinator. */
  lemma RejectFrame(s: System, c: CoordChoice)
    ensures RejectsOnly(s, RejectStep(s, c))
  {
    if s.coord.at.TerminalCheck? || s.coord.at.Judge? || s.coord.at.Wait? || s.coord.at.Exiting? || s.coord.at.Exited? {
      EndFrame(s, c);
    }
  }

  lemma FailActors(s: System, c: CoordChoice)
    requires ActorsPaired(s.book, s.g, s.coord, s.worker) && s.coord.at.LoadFailed?
    ensures var s' := RejectStep(s, c); ActorsPaired(s.book, s'.g, s'.coord, s.worker)
  {
  }

  lemma ClaimedActors(s: System, c: CoordChoice)
    requires ActorsPaired(s.book, s.g, s.coord, s.worker) && s.coord.at.RejectClaimed?
    ensures var s' := RejectStep(s, c); ActorsPaired(s.book, s'.g, s'.coord, s.worker)
  {
  }

  lemma ActiveActors(s: System, c: CoordChoice)
    requires ActorsPaired(s.book, s.g, s.coord, s.worker) && s.coord.at.RejectActive?
    ensures var s' := RejectStep(s, c); ActorsPaired(s.book, s'.g, s'.coord, s.worker)
  {
  }

  lemma ReleaseActors(s: System, c: CoordChoice)
    requires ActorsPaired(s.book, s.g, s.coord, s.worker)
    requires s.coord.at.SwapBack? || s.coord.at.SubBack? || s.coord.at.ReleaseBack?
    ensures var s' := RejectStep(s, c); ActorsPaired(s.book, s'.g, s'.coord, s.worker)
  {
  }

  lemma EndActors(s: System, c: CoordChoice)
    requires ActorsPaired(s.book, s.g, s.coord, s.worker)
    requires s.coord.at.TerminalCheck? || s.coord.at.Judge? || s.coord.at.Wait?
             || s.coord.at.Exiting? || s.coord.at.Exited?
    ensures var s' := RejectStep(s, c); ActorsPaired(s.book, s'.g, s'.coord, s.worker)
  {
  }

  lemma CoordKeepsPaired(s: System, c: CoordChoice)
    requires Paired(s)
    ensures Paired(CoordStep(s, c))
  {
    var at := s.coord.at;
    if at.Top? || at.Receive? { ReceiveKeeps(s, c); }
    else if at.Applying? || at.Reset? { ApplyKeeps(s, c); }
    else if at.Call? { CallKeeps(s, c); }
    else if at.Return? { ReturnKeeps(s, c); }
    else if at.LoadAccepted? || at.Take? || at.ReleaseAdmission? { TakeKeeps(s, c); }
    else if at.SwapReserved? { SwapKeeps(s, c); }
    else if at.Send? { SendKeeps(s, c); }
    else {
      RejectFrame(s, c);
      if at.LoadFailed? { FailActors(s, c); }
      else if at.RejectClaimed? { ClaimedActors(s, c); }
      else if at.RejectActive? { ActiveActors(s, c); }
      else if at.SwapBack? || at.SubBack? || at.ReleaseBack? { ReleaseActors(s, c); }
      else { EndActors(s, c); }
    }
  }

  /** Until it connects, the worker only takes units and moves on. */
  lemma PollFrame(s: System, success: bool, ticket: nat)
    requires !s.worker.at.Working? && !s.worker.at.Sending?
    ensures var s' := WorkerStep(s, success, ticket);
            && s' == s.(g := s.g.(units := s'.g.units), worker := s.worker.(at := s'.worker.at))
            && !s'.worker.at.Sending?
  {
  }

  lemma PollKeeps(s: System, success: bool, ticket: nat)
    requires Paired(s) && !s.worker.at.Working? && !s.worker.at.Sending?
    ensures Paired(WorkerStep(s, success, ticket))
  {
    PollFrame(s, success, ticket);
  }

  lemma WorkKeeps(s: System, success: bool, ticket: nat)
    requires Paired(s) && (s.worker.at.Working? || s.worker.at.Sending?)
    ensures Paired(WorkerStep(s, success, ticket))
  {
  }

  lemma StopFrame(s: System, i: nat)
    requires i in s.stops
    ensures var s' := StopStep(s, i);
            && s' == s.(g := s'.g, ends := s'.ends, stops := s'.stops)
            && s'.g == s.g.(accepting := s'.g.accepting, slot := s'.g.slot, pending := s'.g.pending,
                            reserved := s'.g.reserved, handoffs := s'.g.handoffs)
            && ((s'.g.slot == s.g.slot && s'.g.accepting == s.g.accepting) || s'.g.slot == None)
  {
  }

  lemma StopKeeps(s: System, i: nat)
    requires Paired(s) && i in s.stops
    ensures Paired(StopStep(s, i))
  {
    StopFrame(s, i);
  }

  lemma CrashKeeps(s: System, unused: nat)
    requires Paired(s)
    ensures Paired(CrashStep(s, unused))
  {
  }

  lemma ConsumeKeeps(s: System, o: nat, converted: bool)
    requires Paired(s) && o in s.owners && s.owners[o].queued
    ensures Paired(ConsumeStep(s, o, converted))
  {
  }

  lemma StepKeepsPaired(s: System, s': System)
    requires Paired(s) && NextStep(s, s')
    ensures Paired(s')
  {
    var a :| Enabled(s, a) && s' == Apply(s, a);
    match a
    case CoordRun(c) => CoordKeepsPaired(s, c);
    case WorkerRun(success, ticket) =>
      if s.worker.at.Working? || s.worker.at.Sending? { WorkKeeps(s, success, ticket); }
      else { PollKeeps(s, success, ticket); }
    case WorkerCrash(unused) => CrashKeeps(s, unused);
    case StopRun(i) => StopKeeps(s, i);
    case Consume(o, converted) => ConsumeKeeps(s, o, converted);
    case Shutdown(_) =>
  }

  lemma {:induction false} PairedAlways(run: seq<System>, i: nat)
    requires IsRun(run) && i < |run|
    ensures Paired(run[i])
  {
    if i > 0 {
      PairedAlways(run, i - 1);
      assert StepAt(run, i - 1);
      StepKeepsPaired(run[i - 1], run[i]);
    }
  }

  /** Every pair that reaches the bridge was accepted and preconnected under one generation and tuple. */
  lemma SocketPairing(run: seq<System>, i: nat, h: Handoff)
    requires IsRun(run) && i < |run|
    requires h in run[i].book.delivered || exists o :: o in run[i].owners && run[i].owners[o] == h
    ensures HandoffPaired(run[i].book, h)
  {
    PairedAlways(run, i);
    if h in run[i].book.delivered {
      var n :| 0 <= n < |run[i].book.delivered| && run[i].book.delivered[n] == h;
    }
  }

  /** A Ready or Claimed attempt always has its outbound socket. */
  lemma ReadyIsPrepared(run: seq<System>, i: nat)
    requires IsRun(run) && i < |run| && run[i].g.slot.Some?
    requires run[i].g.slot.value.state == Ready || run[i].g.slot.value.state == Claimed
    ensures var slot := run[i].g.slot.value;
            slot.prepared.Some? && slot.prepared.value in run[i].book.preconnected
            && run[i].book.preconnected[slot.prepared.value] == slot.id
  {
    PairedAlways(run, i);
  }
}
