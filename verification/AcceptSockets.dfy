// Linear ownership: every socket made has exactly one owner until it is closed once or bridged.
module AcceptSockets {
  import opened Prelude
  import opened ConditionalAccept
  import opened AcceptPairing
  import opened AcceptBalance

  /** Every place a socket can be owned from. */
  datatype Holder =
    | ByWorker
    | ByResult(ticket: nat)
    | ByApply
    | BySlot
    | ByTaken
    | ByClient
    | ByStop(stop: nat)
    | ByOwnerClient(owner: nat)
    | ByOwnerOutbound(owner: nat)

  function Prepared(slot: Option<Slot>): Option<Socket> {
    if slot.Some? then slot.value.prepared else None
  }

  function Carried(r: Option<Result>): Option<Socket> {
    if r.Some? then r.value.socket else None
  }

  function Holds(s: System, h: Holder): Option<Socket> {
    match h
    case ByWorker => Carried(s.worker.held)
    case ByResult(n) => if n in s.results then s.results[n].socket else None
    case ByApply => Carried(s.coord.result)
    case BySlot => Prepared(s.g.slot)
    case ByTaken => Prepared(s.coord.taken)
    case ByClient => s.coord.client
    case ByStop(i) => if i in s.stops then Prepared(s.stops[i].taken) else None
    case ByOwnerClient(o) => if o in s.owners then Some(s.owners[o].client) else None
    case ByOwnerOutbound(o) => if o in s.owners then Some(s.owners[o].outbound) else None
  }

  predicate Ended(e: Ends, x: Socket) {
    e.closed[x] + One(x in e.bridged) == 1
  }

  predicate Unended(e: Ends, x: Socket) {
    e.closed[x] == 0 && x !in e.bridged
  }

  ghost predicate HeldOnce(s: System) {
    && (forall h :: Holds(s, h).Some? ==> Holds(s, h).value < s.book.next && Unended(s.ends, Holds(s, h).value))
    && (forall h, k :: Holds(s, h).Some? && Holds(s, h) == Holds(s, k) ==> h == k)
  }

  ghost predicate IsHeld(s: System, x: Socket) {
    exists h :: Holds(s, h) == Some(x)
  }

  ghost predicate Linear(s: System) {
    && HeldOnce(s)
    && (forall x :: s.book.next <= x ==> Unended(s.ends, x))
    && (forall x :: 0 <= x < s.book.next ==> Ended(s.ends, x) || IsHeld(s, x))
  }

  // ----- What a step may do with sockets -----

  /** Only the listed holders changed. */
  ghost predicate Only(s: System, s': System, a: Holder, b: Holder) {
    forall h :: h != a && h != b ==> Holds(s', h) == Holds(s, h)
  }

  ghost predicate Moved(s: System, s': System, a: Holder, b: Holder) {
    && a != b && Only(s, s', a, b) && s'.ends == s.ends && s'.book.next == s.book.next
    && Holds(s, b).None? && Holds(s', b) == Holds(s, a) && Holds(s', a).None?
  }

  /** The sockets in gone left their holders, all by being closed once or all by being bridged. */
  ghost predicate Retired(s: System, s': System, gone: set<Socket>, closing: bool) {
    && s'.book.next == s.book.next
    && (forall x :: x in gone ==> IsHeld(s, x))
    && (forall h :: Holds(s', h) == if Holds(s, h).Some? && Holds(s, h).value in gone then None else Holds(s, h))
    && (forall x :: s'.ends.closed[x] == s.ends.closed[x] + One(closing && x in gone))
    && s'.ends.bridged == if closing then s.ends.bridged else s.ends.bridged + gone
  }

  ghost predicate Made(s: System, s': System, a: Holder) {
    && Only(s, s', a, a) && s'.book.next == s.book.next + 1 && s'.ends == s.ends
    && Holds(s, a).None? && Holds(s', a) == Some(s.book.next)
  }

  ghost predicate Still(s: System, s': System) {
    && (forall h :: Holds(s', h) == Holds(s, h)) && s'.book.next == s.book.next && s'.ends == s.ends
  }

  /** What the holders are read from. */
  predicate SamePlaces(s: System, s': System) {
    && s'.worker.held == s.worker.held && s'.results == s.results && s'.owners == s.owners && s'.stops == s.stops
    && Prepared(s'.g.slot) == Prepared(s.g.slot) && s'.coord.result == s.coord.result
    && s'.coord.taken == s.coord.taken && s'.coord.client == s.coord.client
    && s'.book.next == s.book.next && s'.ends == s.ends
  }

  lemma SamePlacesKeep(s: System, s': System)
    requires Linear(s) && SamePlaces(s, s')
    ensures Linear(s')
  {
    forall h ensures Holds(s', h) == Holds(s, h) { }
    StillKeeps(s, s');
  }

  lemma HeldStays(s: System, s': System, x: Socket, a: Holder, b: Holder)
    requires Only(s, s', a, b) && IsHeld(s, x) && Holds(s, a) != Some(x) && Holds(s, b) != Some(x)
    ensures IsHeld(s', x)
  {
    var h :| Holds(s, h) == Some(x);
    assert Holds(s', h) == Some(x);
  }

  lemma MovedHeldOnce(s: System, s': System, a: Holder, b: Holder)
    requires HeldOnce(s) && Moved(s, s', a, b)
    ensures HeldOnce(s')
  {
  }

  lemma MovedKeeps(s: System, s': System, a: Holder, b: Holder)
    requires Linear(s) && Moved(s, s', a, b)
    ensures Linear(s')
  {
    MovedHeldOnce(s, s', a, b);
    forall x | 0 <= x < s'.book.next && !Ended(s'.ends, x) ensures IsHeld(s', x) {
      if Holds(s, a) == Some(x) { assert Holds(s', b) == Some(x); } else { HeldStays(s, s', x, a, b); }
    }
  }

  lemma RetiredKeeps(s: System, s': System, gone: set<Socket>, closing: bool)
    requires Linear(s) && Retired(s, s', gone, closing)
    ensures Linear(s')
  {
    forall x | x in gone ensures x < s.book.next && Unended(s.ends, x) {
      var h :| Holds(s, h) == Some(x);
    }
    forall x | s.book.next <= x ensures Unended(s'.ends, x) {
      assert Unended(s.ends, x);
    }
    forall x | 0 <= x < s'.book.next && !Ended(s'.ends, x) ensures IsHeld(s', x) {
      assert !Ended(s.ends, x);
      var h :| Holds(s, h) == Some(x);
      assert Holds(s', h) == Some(x);
    }
  }

  lemma MadeKeeps(s: System, s': System, a: Holder)
    requires Linear(s) && Made(s, s', a)
    ensures Linear(s')
  {
    assert Holds(s', a) == Some(s.book.next);
    forall x | 0 <= x < s.book.next && !Ended(s'.ends, x) ensures IsHeld(s', x) {
      HeldStays(s, s', x, a, a);
    }
  }

  lemma StillKeeps(s: System, s': System)
    requires Linear(s) && Still(s, s')
    ensures Linear(s')
  {
    forall x | 0 <= x < s.book.next && !Ended(s'.ends, x) ensures IsHeld(s', x) {
      var h :| Holds(s, h) == Some(x);
      assert Holds(s', h) == Some(x);
    }
  }

  // ----- The steps -----

  lemma Drops(s: System, s': System, a: Holder)
    requires Linear(s) && Only(s, s', a, a) && Holds(s', a).None? && s'.book.next == s.book.next
    requires s'.ends == Close(s.ends, Holds(s, a))
    ensures Linear(s')
  {
    RetiredKeeps(s, s', if Holds(s, a).Some? then {Holds(s, a).value} else {}, true);
  }

  lemma DropsTwo(s: System, s': System, a: Holder, b: Holder)
    requires Linear(s) && Only(s, s', a, b) && a != b && s'.book.next == s.book.next
    requires Holds(s, a).Some? && Holds(s, b).Some? && Holds(s', a).None? && Holds(s', b).None?
    requires s'.ends == Close(Close(s.ends, Holds(s, a)), Holds(s, b))
    ensures Linear(s')
  {
    ClosedTwice(s, s', a, b);
    RetiredKeeps(s, s', {Holds(s, a).value, Holds(s, b).value}, true);
  }

  lemma ClosedTwice(s: System, s': System, a: Holder, b: Holder)
    requires HeldOnce(s) && a != b && Holds(s, a).Some? && Holds(s, b).Some?
    requires s'.ends == Close(Close(s.ends, Holds(s, a)), Holds(s, b))
    ensures var gone := {Holds(s, a).value, Holds(s, b).value};
            && (forall x :: s'.ends.closed[x] == s.ends.closed[x] + One(x in gone)) && s'.ends.bridged == s.ends.bridged
  {
    assert Holds(s, a) != Holds(s, b);
  }

  /** A slot waiting for the worker has no socket yet. */
  predicate Unprepared(g: Gate) {
    g.slot.Some? && g.slot.value.state == Deferred ==> g.slot.value.prepared.None?
  }

  lemma ReceiveLinear(s: System, c: CoordChoice)
    requires Linear(s) && s.coord.at.Receive? && CoordShape(s.coord)
    ensures Linear(AcceptStep(s, c))
  {
    var s' := AcceptStep(s, c);
    if c.ticket in s.results { MovedKeeps(s, s', ByResult(c.ticket), ByApply); } else { StillKeeps(s, s'); }
  }

  lemma ApplyLinear(s: System, c: CoordChoice)
    requires Linear(s) && s.coord.at.Applying? && CoordShape(s.coord) && Unprepared(s.g)
    ensures Linear(AcceptStep(s, c))
  {
    var s' := AcceptStep(s, c);
    if IsDeferred(s.g, s.coord.result.value.id) { MovedKeeps(s, s', ByApply, BySlot); } else { Drops(s, s', ByApply); }
  }

  lemma LeaveLinear(s: System, unused: nat)
    requires Linear(s)
    ensures Linear(Leave(s, unused))
  {
    StillKeeps(s, Leave(s, unused));
  }

  lemma CallPlaces(s: System, c: CoordChoice)
    requires s.coord.at.Reset? || s.coord.at.Call?
    ensures SamePlaces(s, AcceptStep(s, c))
  {
  }

  lemma EnterLinear(s: System, c: CoordChoice)
    requires Linear(s) && (s.coord.at.Top? || s.coord.at.Reset? || s.coord.at.Call?)
    ensures Linear(AcceptStep(s, c))
  {
    if !s.coord.at.Top? {
      CallPlaces(s, c);
      SamePlacesKeep(s, AcceptStep(s, c));
    } else {
      SamePlacesKeep(s, s.(coord := s.coord.(at := Receive)));
      LeaveLinear(s, c.unused);
    }
  }

  lemma ReturnLinear(s: System, c: CoordChoice)
    requires Linear(s) && s.coord.at.Return? && CoordShape(s.coord)
    ensures Linear(AcceptStep(s, c))
  {
    var s' := AcceptStep(s, c);
    if c.success { MadeKeeps(s, s', ByClient); } else { StillKeeps(s, s'); }
  }

  lemma LoadLinear(s: System, c: CoordChoice)
    requires Linear(s) && s.coord.at.LoadAccepted?
    ensures Linear(AcceptStep(s, c))
  {
    var s' := AcceptStep(s, c);
    if s.g.acceptedGeneration == 0 { Drops(s, s', ByClient); } else { StillKeeps(s, s'); }
  }

  lemma TakeLinear(s: System, c: CoordChoice)
    requires Linear(s) && s.coord.at.Take? && CoordShape(s.coord)
    ensures Linear(AcceptStep(s, c))
  {
    var s' := AcceptStep(s, c);
    if SlotClaimed(s.g, s.coord.generation) { MovedKeeps(s, s', BySlot, ByTaken); } else { Drops(s, s', ByClient); }
  }

  lemma AdmissionLinear(s: System, c: CoordChoice)
    requires Linear(s) && s.coord.at.ReleaseAdmission?
    ensures Linear(AcceptStep(s, c))
  {
    var s' := AcceptStep(s, c);
    if Prepared(s.coord.taken).None? { Drops(s, s', ByClient); } else { StillKeeps(s, s'); }
  }

  /** A handoff takes both sockets over at once. */
  lemma PassedKeeps(s: System, s': System, o: nat)
    requires Linear(s) && s'.ends == s.ends && s'.book.next == s.book.next
    requires Holds(s, ByOwnerClient(o)).None? && Holds(s, ByOwnerOutbound(o)).None?
    requires Holds(s', ByOwnerClient(o)) == Holds(s, ByClient) && Holds(s', ByOwnerOutbound(o)) == Holds(s, ByTaken)
    requires Holds(s', ByClient).None? && Holds(s', ByTaken).None?
    requires forall h :: h != ByClient && h != ByTaken && h != ByOwnerClient(o) && h != ByOwnerOutbound(o) ==>
               Holds(s', h) == Holds(s, h)
    ensures Linear(s')
  {
    forall x | 0 <= x < s.book.next && !Ended(s'.ends, x) ensures IsHeld(s', x) {
      var h :| Holds(s, h) == Some(x);
      var h' := if h == ByClient then ByOwnerClient(o) else if h == ByTaken then ByOwnerOutbound(o) else h;
      assert Holds(s', h') == Some(x);
    }
  }

  lemma SwapLinear(s: System, c: CoordChoice)
    requires Linear(s) && s.coord.at.SwapReserved? && CoordShape(s.coord)
    ensures Linear(AcceptStep(s, c))
  {
    var s' := AcceptStep(s, c);
    if Prepared(s.coord.taken).None? || (s.g.reserved && c.unused in s.owners) { }
    else if !s.g.reserved { DropsTwo(s, s', ByClient, ByTaken); }
    else { PassedKeeps(s, s', c.unused); }
  }

  lemma DropOwnerLinear(s: System, o: nat)
    requires Linear(s) && o in s.owners
    ensures Linear(DropOwner(s, o))
  {
    DropsTwo(s, DropOwner(s, o), ByOwnerClient(o), ByOwnerOutbound(o));
  }

  /** Moving the coordinator, opening a stop or queueing a handoff moves no socket. */
  lemma ShiftLinear(s: System, at: CoordAt, unused: nat, o: nat)
    requires Linear(s)
    ensures Linear(s.(coord := s.coord.(at := at)))
    ensures unused !in s.stops ==> Linear(s.(stops := s.stops[unused := Stop(Lock, None)]))
    ensures Linear(Leave(s, unused))
    ensures o in s.owners ==>
              Linear(s.(owners := s.owners[o := s.owners[o].(queued := true)], coord := s.coord.(at := at)))
  {
    SamePlacesKeep(s, s.(coord := s.coord.(at := at)));
    LeaveLinear(s, unused);
    if unused !in s.stops { StillKeeps(s, s.(stops := s.stops[unused := Stop(Lock, None)])); }
    if o in s.owners {
      StillKeeps(s, s.(owners := s.owners[o := s.owners[o].(queued := true)], coord := s.coord.(at := at)));
    }
  }

  lemma SendLinear(s: System, c: CoordChoice)
    requires Linear(s) && s.coord.at.Send?
    ensures Linear(AcceptStep(s, c))
  {
    var o := s.coord.at.owner;
    ShiftLinear(s, Wait, c.unused, o);
    if o in s.owners {
      DropOwnerLinear(s, o);
      ShiftLinear(DropOwner(s, o), Wait, c.unused, o);
    }
  }

  lemma RemoveLinear(s: System, next: Next)
    requires Linear(s) && s.coord.taken.None?
    ensures Linear(Remove(s, next))
    ensures Linear(s.(coord := Go(s.coord, next)))
  {
    MovedKeeps(s, Remove(s, next), BySlot, ByTaken);
    StillKeeps(s, s.(coord := Go(s.coord, next)));
  }

  lemma ReleaseLinear(s: System, c: CoordChoice)
    requires Linear(s) && s.coord.at.ReleaseBack? && CoordShape(s.coord)
    ensures Linear(RejectStep(s, c))
  {
    Drops(s, RejectStep(s, c), ByTaken);
  }

  lemma SwapBackPlaces(s: System, c: CoordChoice)
    requires s.coord.at.SwapBack? || s.coord.at.SubBack?
    ensures SamePlaces(s, RejectStep(s, c))
  {
  }

  lemma SwapBackLinear(s: System, c: CoordChoice)
    requires Linear(s) && (s.coord.at.SwapBack? || s.coord.at.SubBack?)
    ensures Linear(RejectStep(s, c))
  {
    SwapBackPlaces(s, c);
    SamePlacesKeep(s, RejectStep(s, c));
  }

  lemma LoopPlaces(s: System, c: CoordChoice)
    requires s.coord.at.LoadFailed? || s.coord.at.TerminalCheck?
    ensures SamePlaces(s, RejectStep(s, c))
  {
  }

  lemma LoopLinear(s: System, c: CoordChoice)
    requires Linear(s) && (s.coord.at.LoadFailed? || s.coord.at.TerminalCheck? || s.coord.at.Judge? || s.coord.at.Wait?)
    ensures Linear(RejectStep(s, c))
  {
    if s.coord.at.LoadFailed? || s.coord.at.TerminalCheck? {
      LoopPlaces(s, c);
      SamePlacesKeep(s, RejectStep(s, c));
    } else {
      SamePlacesKeep(s, s.(coord := s.coord.(at := Wait)));
      SamePlacesKeep(s, s.(coord := s.coord.(at := Top)));
      LeaveLinear(s, c.unused);
    }
  }

  /** Dropping the result channel closes every socket still in it. */
  lemma ExitLinear(s: System, c: CoordChoice)
    requires Linear(s) && (s.coord.at.Exiting? || s.coord.at.Exited?)
    ensures Linear(RejectStep(s, c))
  {
    var s' := RejectStep(s, c);
    if s' != s {
      var gone := set n | n in s.results && s.results[n].socket.Some? :: s.results[n].socket.value;
      forall x | x in gone ensures IsHeld(s, x) {
        var n :| n in s.results && s.results[n].socket == Some(x);
        assert Holds(s, ByResult(n)) == Some(x);
      }
      forall h ensures Holds(s', h) == if Holds(s, h).Some? && Holds(s, h).value in gone then None else Holds(s, h) {
        if Holds(s, h).Some? && Holds(s, h).value in gone {
          var n :| n in s.results && s.results[n].socket == Holds(s, h);
          assert Holds(s, ByResult(n)) == Holds(s, h);
        }
      }
      RetiredKeeps(s, s', gone, true);
    }
  }

  lemma CoordLinear(s: System, c: CoordChoice)
    requires Linear(s) && CoordShape(s.coord) && Unprepared(s.g) && StopsOk(s.g, s.stops)
    ensures Linear(CoordStep(s, c))
  {
    var at := s.coord.at;
    if at.Receive? { ReceiveLinear(s, c); }
    else if at.Applying? { ApplyLinear(s, c); }
    else if at.Top? || at.Reset? || at.Call? { EnterLinear(s, c); }
    else if at.Return? { ReturnLinear(s, c); }
    else if at.LoadAccepted? { LoadLinear(s, c); }
    else if at.Take? { TakeLinear(s, c); }
    else if at.ReleaseAdmission? { AdmissionLinear(s, c); }
    else if at.SwapReserved? { SwapLinear(s, c); }
    else if at.Send? { SendLinear(s, c); }
    else if at.RejectClaimed? || at.RejectActive? { RemoveLinear(s, at.next); }
    else if at.ReleaseBack? { ReleaseLinear(s, c); }
    else if at.SwapBack? || at.SubBack? { SwapBackLinear(s, c); }
    else if at.Exiting? || at.Exited? { ExitLinear(s, c); }
    else { LoopLinear(s, c); }
  }

  lemma LookLinear(s: System, success: bool, ticket: nat)
    requires Linear(s) && !s.worker.at.Working? && !s.worker.at.Sending?
    ensures Linear(WorkerStep(s, success, ticket))
  {
    PollFrame(s, success, ticket);
    SamePlacesKeep(s, WorkerStep(s, success, ticket));
  }

  lemma WorkingLinear(s: System, success: bool, ticket: nat)
    requires Linear(s) && s.worker.at.Working? && WorkerShape(s.worker)
    ensures Linear(WorkerStep(s, success, ticket))
  {
    var s' := WorkerStep(s, success, ticket);
    if success { MadeKeeps(s, s', ByWorker); } else { StillKeeps(s, s'); }
  }

  lemma SendingLinear(s: System, success: bool, ticket: nat)
    requires Linear(s) && s.worker.at.Sending? && WorkerShape(s.worker)
    ensures Linear(WorkerStep(s, success, ticket))
  {
    var s' := WorkerStep(s, success, ticket);
    if s.coord.at.Exited? { Drops(s, s', ByWorker); }
    else if ticket !in s.results { MovedKeeps(s, s', ByWorker, ByResult(ticket)); }
  }

  lemma WorkerLinear(s: System, success: bool, ticket: nat)
    requires Linear(s) && WorkerShape(s.worker)
    ensures Linear(WorkerStep(s, success, ticket))
  {
    if s.worker.at.Working? { WorkingLinear(s, success, ticket); }
    else if s.worker.at.Sending? { SendingLinear(s, success, ticket); }
    else { LookLinear(s, success, ticket); }
  }

  lemma CrashLinear(s: System, unused: nat)
    requires Linear(s)
    ensures Linear(CrashStep(s, unused))
  {
    var s' := CrashStep(s, unused);
    if s' != s { Drops(s, s', ByWorker); }
  }

  lemma StopLinear(s: System, i: nat)
    requires Linear(s) && i in s.stops && StopsOk(s.g, s.stops)
    ensures Linear(StopStep(s, i))
  {
    var s' := StopStep(s, i);
    if s.stops[i].at == Lock { MovedKeeps(s, s', BySlot, ByStop(i)); }
    else if s.stops[i].at == Release { Drops(s, s', ByStop(i)); }
    else { StillKeeps(s, s'); }
  }

  lemma ConsumeLinear(s: System, o: nat, converted: bool)
    requires Linear(s) && o in s.owners && s.owners[o].queued
    ensures Linear(ConsumeStep(s, o, converted))
  {
    if converted {
      assert Holds(s, ByOwnerClient(o)) == Some(s.owners[o].client);
      assert Holds(s, ByOwnerOutbound(o)) == Some(s.owners[o].outbound);
      RetiredKeeps(s, ConsumeStep(s, o, true), {s.owners[o].client, s.owners[o].outbound}, false);
    } else {
      DropOwnerLinear(s, o);
    }
  }

  lemma CallUnprepared(s: System, c: CoordChoice)
    requires Unprepared(s.g) && (s.coord.at.Applying? || s.coord.at.Call?)
    ensures Unprepared(AcceptStep(s, c).g)
  {
  }

  lemma AcceptUnprepared(s: System, c: CoordChoice)
    requires Unprepared(s.g) && AcceptHalf(s.coord.at)
    ensures Unprepared(AcceptStep(s, c).g)
  {
    if s.coord.at.Applying? || s.coord.at.Call? { CallUnprepared(s, c); }
  }

  lemma RejectUnprepared(s: System, c: CoordChoice)
    requires Unprepared(s.g) && !AcceptHalf(s.coord.at)
    ensures Unprepared(RejectStep(s, c).g)
  {
    var at := s.coord.at;
    if at.SwapBack? || at.SubBack? || at.ReleaseBack? || at.TerminalCheck? { ReleaseUnprepared(s, c); }
  }

  lemma ReleaseUnprepared(s: System, c: CoordChoice)
    requires Unprepared(s.g)
    requires s.coord.at.SwapBack? || s.coord.at.SubBack? || s.coord.at.ReleaseBack? || s.coord.at.TerminalCheck?
    ensures Unprepared(RejectStep(s, c).g)
  {
  }

  predicate Drained(at: CoordAt, results: map<nat, Result>) {
    at.Exited? ==> results == map[]
  }

  lemma AcceptDrained(s: System, c: CoordChoice)
    requires AcceptHalf(s.coord.at)
    ensures !AcceptStep(s, c).coord.at.Exited?
  {
  }

  lemma RejectDrained(s: System, c: CoordChoice)
    requires Drained(s.coord.at, s.results) && !AcceptHalf(s.coord.at)
    ensures Drained(RejectStep(s, c).coord.at, RejectStep(s, c).results)
  {
  }

  predicate Tidy(s: System) {
    Unprepared(s.g) && Drained(s.coord.at, s.results)
  }

  lemma CoordTidy(s: System, c: CoordChoice)
    requires Tidy(s)
    ensures Tidy(CoordStep(s, c))
  {
    if AcceptHalf(s.coord.at) { AcceptUnprepared(s, c); AcceptDrained(s, c); }
    else { RejectUnprepared(s, c); RejectDrained(s, c); }
  }

  lemma WorkerTidy(s: System, success: bool, ticket: nat)
    requires Tidy(s)
    ensures Tidy(WorkerStep(s, success, ticket))
  {
    WorkerFrame(s, success, ticket);
  }

  lemma OtherTidy(s: System, a: Action)
    requires Tidy(s) && Enabled(s, a) && !a.CoordRun? && !a.WorkerRun?
    ensures Tidy(Apply(s, a))
  {
  }

  lemma StepTidy(s: System, a: Action)
    requires Tidy(s) && Enabled(s, a)
    ensures Tidy(Apply(s, a))
  {
    if a.CoordRun? { CoordTidy(s, a.c); }
    else if a.WorkerRun? { WorkerTidy(s, a.success, a.ticket); }
    else { OtherTidy(s, a); }
  }

  lemma StepLinear(s: System, a: Action)
    requires Linear(s) && Unprepared(s.g) && Enabled(s, a)
    requires CoordShape(s.coord) && WorkerShape(s.worker) && StopsOk(s.g, s.stops)
    ensures Linear(Apply(s, a))
  {
    if a.CoordRun? { CoordLinear(s, a.c); }
    else if a.WorkerRun? { WorkerLinear(s, a.success, a.ticket); }
    else if a.WorkerCrash? { CrashLinear(s, a.unused); }
    else if a.Shutdown? { ShiftLinear(s, Top, a.unused, 0); }
    else if a.StopRun? { StopLinear(s, a.i); }
    else { ConsumeLinear(s, a.o, a.converted); }
  }

  lemma StepKeepsLinear(s: System, s': System)
    requires Linear(s) && Tidy(s) && NextStep(s, s')
    requires CoordShape(s.coord) && WorkerShape(s.worker) && StopsOk(s.g, s.stops)
    ensures Linear(s') && Tidy(s')
  {
    var a :| Enabled(s, a) && s' == Apply(s, a);
    StepLinear(s, a);
    StepTidy(s, a);
  }

  lemma LinearNext(run: seq<System>, i: nat)
    requires IsRun(run) && i + 1 < |run| && Linear(run[i]) && Tidy(run[i])
    ensures Linear(run[i + 1]) && Tidy(run[i + 1])
  {
    ActorsAlways(run, i);
    BalancedAlways(run, i);
    var s, s' := run[i], run[i + 1];
    assert StepAt(run, i);
    StepKeepsLinear(s, s');
  }

  lemma {:induction false} LinearAlways(run: seq<System>, i: nat)
    requires IsRun(run) && i < |run|
    ensures Linear(run[i]) && Tidy(run[i])
  {
    if i > 0 {
      LinearAlways(run, i - 1);
      LinearNext(run, i - 1);
    }
  }

  /** In every reachable state a socket that was made is held in one place, or was closed once, or was bridged. */
  lemma SocketLinearity(run: seq<System>, i: nat, x: Socket)
    requires IsRun(run) && i < |run| && x < run[i].book.next
    ensures run[i].ends.closed[x] <= 1
    ensures x in run[i].ends.bridged ==> run[i].ends.closed[x] == 0
    ensures (x !in run[i].ends.bridged && run[i].ends.closed[x] == 0) <==> IsHeld(run[i], x)
    ensures forall h, k :: Holds(run[i], h) == Some(x) && Holds(run[i], k) == Some(x) ==> h == k
  {
    LinearAlways(run, i);
    assert Ended(run[i].ends, x) || IsHeld(run[i], x);
  }

  /** Once every thread has ended and the Tokio side has taken its pairs, no socket has leaked. */
  lemma NothingLeaks(run: seq<System>, i: nat, stop: nat, x: Socket)
    requires IsRun(run) && i < |run| && x < run[i].book.next
    requires AllStopped(run[i]) && stop in run[i].stops && !Listening(run[i].worker) && run[i].owners == map[]
    ensures run[i].ends.closed[x] + One(x in run[i].ends.bridged) == 1
  {
    LinearAlways(run, i);
    ActorsAlways(run, i);
    BalancedAlways(run, i);
    var s := run[i];
    assert s.stops[stop].at != Lock;
    forall h ensures Holds(s, h).None? { NothingHeld(s, h); }
    assert Ended(s.ends, x) || IsHeld(s, x);
  }

  lemma NothingHeld(s: System, h: Holder)
    requires AllStopped(s) && !Listening(s.worker) && s.owners == map[] && s.g.slot.None?
    requires CoordShape(s.coord) && WorkerShape(s.worker) && Tidy(s) && StopsOk(s.g, s.stops)
    ensures Holds(s, h).None?
  {
  }
}
