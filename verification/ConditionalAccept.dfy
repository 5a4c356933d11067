// The Windows conditional-accept machine of crates/host-proxy/src/lib.rs: one attempt slot
// shared by the accept callback, the preconnect worker, the coordinator and shutdown.
module ConditionalAccept {
  import opened Prelude

  /** The tuple Winsock presents to the condition callback, and the incarnation it was deferred under. */
  datatype Tuple = Tuple(source: nat, destination: nat)
  datatype Id = Id(tuple: Tuple, generation: nat)

  datatype AttemptState = Deferred | Ready | Claimed | Rejected | Cancelled

  type Socket = nat

  datatype Slot = Slot(id: Id, state: AttemptState, prepared: Option<Socket>)

  /** A worker result; no socket means the lookup, connect or budget failed. */
  datatype Result = Result(id: Id, socket: Option<Socket>)

  datatype Handoff = Handoff(client: Socket, outbound: Socket, id: Id, queued: bool)

  /** What the mutex and the atomics of ConditionalContext hold. */
  datatype Gate = Gate(
    accepting: bool,
    slot: Option<Slot>,
    pending: int,
    nextGeneration: nat,
    units: nat,                // the bounded request channel carries only unit values
    handoffs: int,
    reserved: bool,
    acceptedGeneration: nat)

  /** History: the attempt each socket was made for, and the pairs delivered. */
  datatype Book = Book(
    next: nat,
    preconnected: map<Socket, Id>,
    acceptedFor: map<Socket, Id>,
    delivered: seq<Handoff>)

  /** History: how sockets ended, by closesocket or by becoming a bridge. */
  datatype Ends = Ends(closed: multiset<Socket>, bridged: set<Socket>)

  datatype Error = Transient | Client | Fatal

  /** Where the coordinator goes after releasing a slot it removed. */
  datatype Next = ToTerminal(e: Error) | ToJudge(e: Error) | ToWait | ToReject

  datatype CoordAt =
    | Top
    | Receive
    | Applying
    | Reset
    | Call
    | Return
    | LoadAccepted
    | Take
    | ReleaseAdmission
    | SwapReserved
    | Send(owner: nat)
    | LoadFailed(e: Error)
    | RejectClaimed(next: Next)
    | RejectActive(next: Next)
    | SwapBack(next: Next)
    | SubBack(next: Next)
    | ReleaseBack(next: Next)
    | TerminalCheck(e: Error)
    | Judge(e: Error)
    | Wait
    | Exiting(stop: nat)
    | Exited

  /** The coordinator thread with everything it owns. */
  datatype Coord = Coord(
    at: CoordAt,
    result: Option<Result>,
    client: Option<Socket>,
    taken: Option<Slot>,
    generation: nat,
    claimed: Option<Id>)       // history: what the callback accepted in this WSAAccept

  datatype WorkerAt =
    | Poll
    | Recv
    | Taken
    | Snapped(id: Id)
    | Working(id: Id)
    | Sending
    | Gone
    | Crashed(stop: nat)

  datatype Worker = Worker(at: WorkerAt, held: Option<Result>)

  datatype StopAt = Lock | Release | Swap | Owe | Done
  datatype Stop = Stop(at: StopAt, taken: Option<Slot>)

  datatype System = System(
    limit: nat,
    g: Gate,
    book: Book,
    ends: Ends,
    results: map<nat, Result>,
    owners: map<nat, Handoff>,
    coord: Coord,
    worker: Worker,
    stops: map<nat, Stop>)

  predicate Init(s: System) {
    && s.g == Gate(true, None, 0, 1, 0, 0, false, 0)
    && s.book == Book(0, map[], map[], []) && s.ends == Ends(multiset{}, {})
    && s.results == map[] && s.owners == map[] && s.stops == map[]
    && s.coord == Coord(Top, None, None, None, 0, None)
    && s.worker == Worker(Poll, None)
  }

  /** closesocket, or nothing when there is no socket to close. */
  function Close(e: Ends, x: Option<Socket>): Ends {
    if x.Some? then e.(closed := e.closed + multiset{x.value}) else e
  }

  // ----- The callback -----

  datatype Verdict = Accept | Reject | Defer

  predicate Listening(w: Worker) {
    !w.at.Gone? && !w.at.Crashed?
  }

  /** condition_callback as one step under the slot lock; unlocked models a failed try_lock. */
  function Callback(limit: nat, g: Gate, listening: bool, tuple: Option<Tuple>, locked: bool): (Gate, Verdict) {
    if tuple.None? || !locked then (g, Reject)
    else if g.slot.Some? then
      var slot := g.slot.value;
      if slot.id.tuple != tuple.value then (g, Reject)
      else if !g.accepting then (g.(slot := Some(slot.(state := Cancelled))), Reject)
      else
        match slot.state
        case Deferred => (g, Defer)
        case Ready =>
          if g.handoffs >= limit then (g.(slot := Some(slot.(state := Rejected))), Reject)
          else (g.(handoffs := g.handoffs + 1, reserved := true,
                   slot := Some(slot.(state := Claimed)), acceptedGeneration := slot.id.generation), Accept)
        case Claimed => (g, Reject)
        case Rejected => (g, Reject)
        case Cancelled => (g, Reject)
    else if !g.accepting || g.pending >= limit then (g, Reject)
    else if listening && g.units < limit then
      (g.(pending := g.pending + 1, nextGeneration := g.nextGeneration + 1, units := g.units + 1,
          slot := Some(Slot(Id(tuple.value, g.nextGeneration), Deferred, None))), Defer)
    else
      // The slot is installed, the full queue refuses the unit, and everything is taken back.
      (g.(nextGeneration := g.nextGeneration + 1,
          handoffs := if g.reserved then g.handoffs - 1 else g.handoffs, reserved := false), Reject)
  }

  // ----- The coordinator -----

  datatype CoordChoice = CoordChoice(
    ticket: nat, tuple: Option<Tuple>, locked: bool, success: bool, error: Error,
    ok: bool, room: bool, open: bool, unused: nat)

  function Go(c: Coord, next: Next): Coord {
    c.(at := match next
             case ToTerminal(e) => TerminalCheck(e)
             case ToJudge(e) => Judge(e)
             case ToWait => Wait
             case ToReject => RejectClaimed(ToWait))
  }

  predicate SlotClaimed(g: Gate, generation: nat) {
    g.slot.Some? && g.slot.value.id.generation == generation && g.slot.value.state == Claimed
  }

  /** apply_worker_result. */
  function ApplyResult(g: Gate, e: Ends, r: Result): (Gate, Ends) {
    if g.slot.Some? && g.slot.value.id == r.id && g.slot.value.state == Deferred then
      if r.socket.Some? then (g.(slot := Some(g.slot.value.(prepared := r.socket, state := Ready))), e)
      else (g.(slot := Some(g.slot.value.(state := Rejected))), e)
    else (g, Close(e, r.socket))
  }

  /** Taking the slot out of the table to release it. */
  function Remove(s: System, next: Next): System {
    s.(g := s.g.(slot := None), coord := s.coord.(at := SwapBack(next), taken := s.g.slot))
  }

  /** Ending the loop: the coordinator stops admissions itself before it returns. */
  function Leave(s: System, unused: nat): System {
    if unused in s.stops then s
    else s.(coord := s.coord.(at := Exiting(unused)), stops := s.stops[unused := Stop(Lock, None)])
  }

  function DropOwner(s: System, o: nat): System
    requires o in s.owners
  {
    s.(owners := s.owners - {o},
       ends := Close(Close(s.ends, Some(s.owners[o].client)), Some(s.owners[o].outbound)),
       g := s.g.(handoffs := s.g.handoffs - 1))
  }

  function CloseAll(e: Ends, results: map<nat, Result>): Ends {
    e.(closed := e.closed + multiset(set n | n in results && results[n].socket.Some? :: results[n].socket.value))
  }

  /** The accept half of the loop. */
  function AcceptStep(s: System, c: CoordChoice): System {
    var co := s.coord;
    match co.at
    case Top => if s.g.accepting then s.(coord := co.(at := Receive)) else Leave(s, c.unused)
    case Receive =>
      if s.results == map[] then s.(coord := co.(at := Reset))
      else if c.ticket !in s.results then s
      else s.(results := s.results - {c.ticket}, coord := co.(at := Applying, result := Some(s.results[c.ticket])))
    case Applying =>
      if co.result.None? then s
      else
        var (g', e') := ApplyResult(s.g, s.ends, co.result.value);
        s.(g := g', ends := e', coord := co.(at := Receive, result := None))
    case Reset =>
      s.(g := s.g.(acceptedGeneration := 0), coord := co.(at := Call, claimed := None))
    case Call =>
      var (g', v) := Callback(s.limit, s.g, Listening(s.worker), c.tuple, c.locked);
      s.(g := g', coord := co.(at := Return, claimed := if v == Accept then Some(s.g.slot.value.id) else None))
    case Return =>
      if c.success then
        s.(coord := co.(at := LoadAccepted, client := Some(s.book.next)),
           book := s.book.(next := s.book.next + 1,
                           acceptedFor := if co.claimed.Some? then s.book.acceptedFor[s.book.next := co.claimed.value]
                                          else s.book.acceptedFor))
      else s.(coord := co.(at := LoadFailed(c.error)))
    case LoadAccepted =>
      if s.g.acceptedGeneration == 0 then
        s.(ends := Close(s.ends, co.client), coord := co.(at := Wait, client := None, generation := 0))
      else s.(coord := co.(at := Take, generation := s.g.acceptedGeneration))
    case Take =>
      if SlotClaimed(s.g, co.generation) then
        s.(g := s.g.(slot := None), coord := co.(at := ReleaseAdmission, taken := s.g.slot))
      else s.(ends := Close(s.ends, co.client), coord := co.(at := RejectClaimed(ToWait), client := None))
    case ReleaseAdmission =>
      if co.taken.None? || co.taken.value.prepared.None? then
        s.(ends := Close(s.ends, co.client), coord := co.(at := SwapBack(ToReject), client := None))
      else s.(g := s.g.(pending := s.g.pending - 1), coord := co.(at := SwapReserved))
    case SwapReserved =>
      if co.client.None? || co.taken.None? || co.taken.value.prepared.None? then s
      else if !s.g.reserved then
        s.(ends := Close(Close(s.ends, co.client), co.taken.value.prepared),
           coord := co.(at := RejectClaimed(ToWait), client := None, taken := None))
      else if c.unused in s.owners then s
      else
        s.(g := s.g.(reserved := false),
           owners := s.owners[c.unused := Handoff(co.client.value, co.taken.value.prepared.value,
                                                  co.taken.value.id, false)],
           coord := co.(at := Send(c.unused), client := None, taken := None))
    case Send(o) =>
      if o !in s.owners then s.(coord := co.(at := Wait))
      else if !c.ok then DropOwner(s, o).(coord := co.(at := Wait))
      else if c.room && c.open then
        s.(owners := s.owners[o := s.owners[o].(queued := true)], coord := co.(at := Wait))
      else if c.open then DropOwner(s, o).(coord := co.(at := Wait))
      else if c.unused in s.stops then s
      else Leave(DropOwner(s, o), c.unused)
    case _ => s
  }

  /** The rejection half of the loop and its end. */
  function RejectStep(s: System, c: CoordChoice): System {
    var co := s.coord;
    match co.at
    case LoadFailed(e) =>
      var gen := s.g.acceptedGeneration;
      s.(coord := co.(generation := gen,
                      at := if gen != 0 then RejectClaimed(ToTerminal(e))
                            else if e != Transient then RejectActive(ToTerminal(e))
                            else TerminalCheck(e)))
    case RejectClaimed(next) =>
      if SlotClaimed(s.g, co.generation) then Remove(s, next) else s.(coord := Go(co, next))
    case RejectActive(next) =>
      if s.g.slot.Some? then Remove(s, next) else s.(coord := Go(co, next))
    case SwapBack(next) =>
      if s.g.reserved then s.(g := s.g.(reserved := false), coord := co.(at := SubBack(next)))
      else s.(coord := co.(at := ReleaseBack(next)))
    case SubBack(next) =>
      s.(g := s.g.(handoffs := s.g.handoffs - 1), coord := co.(at := ReleaseBack(next)))
    case ReleaseBack(next) =>
      if co.taken.None? then s
      else s.(g := s.g.(pending := s.g.pending - 1), ends := Close(s.ends, co.taken.value.prepared),
              coord := Go(co.(taken := None), next))
    case TerminalCheck(e) =>
      s.(coord := co.(at := if s.g.slot.Some? && (s.g.slot.value.state == Rejected || s.g.slot.value.state == Cancelled)
                            then RejectActive(ToJudge(e)) else Judge(e)))
    case Judge(e) => if e == Fatal then Leave(s, c.unused) else s.(coord := co.(at := Wait))
    case Wait => if c.ok then s.(coord := co.(at := Top)) else Leave(s, c.unused)
    case Exiting(i) =>
      if i in s.stops && s.stops[i].at == Done then
        s.(coord := co.(at := Exited), ends := CloseAll(s.ends, s.results), results := map[])
      else s
    case _ => s
  }

  predicate AcceptHalf(at: CoordAt) {
    at.Top? || at.Receive? || at.Applying? || at.Reset? || at.Call? || at.Return? || at.LoadAccepted? || at.Take?
    || at.ReleaseAdmission? || at.SwapReserved? || at.Send?
  }

  function CoordStep(s: System, c: CoordChoice): System {
    if AcceptHalf(s.coord.at) then AcceptStep(s, c) else RejectStep(s, c)
  }

  // ----- The worker, shutdown and the Tokio side -----

  predicate IsDeferred(g: Gate, id: Id) {
    g.slot.Some? && g.slot.value.id == id && g.slot.value.state == Deferred
  }

  function WorkerStep(s: System, success: bool, ticket: nat): System {
    var w := s.worker;
    match w.at
    case Poll => s.(worker := w.(at := if s.g.accepting then Recv else Gone))
    case Recv =>
      if s.g.units > 0 then s.(g := s.g.(units := s.g.units - 1), worker := w.(at := Taken))
      else s.(worker := w.(at := Poll))
    case Taken =>
      s.(worker := w.(at := if s.g.slot.Some? && s.g.slot.value.state == Deferred then Snapped(s.g.slot.value.id)
                            else Poll))
    case Snapped(id) => s.(worker := w.(at := if IsDeferred(s.g, id) then Working(id) else Poll))
    case Working(id) =>
      if success then
        s.(worker := Worker(Sending, Some(Result(id, Some(s.book.next)))),
           book := s.book.(next := s.book.next + 1, preconnected := s.book.preconnected[s.book.next := id]))
      else s.(worker := Worker(Sending, Some(Result(id, None))))
    case Sending =>
      if w.held.None? then s
      else if s.coord.at.Exited? then s.(ends := Close(s.ends, w.held.value.socket), worker := Worker(Gone, None))
      else if ticket in s.results then s
      else s.(results := s.results[ticket := w.held.value], worker := Worker(Poll, None))
    case Gone => s
    case Crashed(_) => s
  }

  /** A worker panic drops what it holds and stops admissions from the unwinding thread. */
  function CrashStep(s: System, unused: nat): System {
    if unused in s.stops || !Listening(s.worker) then s
    else s.(ends := Close(s.ends, if s.worker.held.Some? then s.worker.held.value.socket else None),
            worker := Worker(Crashed(unused), None),
            stops := s.stops[unused := Stop(Lock, None)])
  }

  /** stop_and_reject_pending. */
  function StopStep(s: System, i: nat): System
    requires i in s.stops
  {
    var st := s.stops[i];
    match st.at
    case Lock =>
      s.(g := s.g.(accepting := false, slot := None), stops := s.stops[i := Stop(Release, s.g.slot)])
    case Release =>
      if st.taken.None? then s.(stops := s.stops[i := Stop(Swap, None)])
      else s.(g := s.g.(pending := s.g.pending - 1), ends := Close(s.ends, st.taken.value.prepared),
              stops := s.stops[i := Stop(Swap, None)])
    case Swap =>
      s.(g := s.g.(reserved := false), stops := s.stops[i := Stop(if s.g.reserved then Owe else Done, None)])
    case Owe =>
      s.(g := s.g.(handoffs := s.g.handoffs - 1), stops := s.stops[i := Stop(Done, None)])
    case Done => s
  }

  /** The Tokio side takes a queued pair: converted into a bridge, or dropped. */
  function ConsumeStep(s: System, o: nat, converted: bool): System
    requires o in s.owners && s.owners[o].queued
  {
    if converted then
      s.(owners := s.owners - {o},
         ends := s.ends.(bridged := s.ends.bridged + {s.owners[o].client, s.owners[o].outbound}),
         book := s.book.(delivered := s.book.delivered + [s.owners[o]]),
         g := s.g.(handoffs := s.g.handoffs - 1))
    else DropOwner(s, o)
  }

  datatype Action =
    | CoordRun(c: CoordChoice)
    | WorkerRun(success: bool, ticket: nat)
    | WorkerCrash(unused: nat)
    | Shutdown(unused: nat)
    | StopRun(i: nat)
    | Consume(o: nat, converted: bool)

  predicate Enabled(s: System, a: Action) {
    match a
    case Shutdown(unused) => unused !in s.stops
    case StopRun(i) => i in s.stops
    case Consume(o, _) => o in s.owners && s.owners[o].queued
    case _ => true
  }

  function Apply(s: System, a: Action): System
    requires Enabled(s, a)
  {
    match a
    case CoordRun(c) => CoordStep(s, c)
    case WorkerRun(success, ticket) => WorkerStep(s, success, ticket)
    case WorkerCrash(unused) => CrashStep(s, unused)
    case Shutdown(unused) => s.(stops := s.stops[unused := Stop(Lock, None)])
    case StopRun(i) => StopStep(s, i)
    case Consume(o, converted) => ConsumeStep(s, o, converted)
  }

  ghost predicate NextStep(s: System, s': System) {
    exists a :: Enabled(s, a) && s' == Apply(s, a)
  }

  ghost predicate StepAt(run: seq<System>, i: nat)
    requires i + 1 < |run|
  {
    NextStep(run[i], run[i + 1])
  }

  ghost predicate IsRun(run: seq<System>) {
    && run != []
    && Init(run[0])
    && forall i {:trigger StepAt(run, i)} :: 0 <= i < |run| - 1 ==> StepAt(run, i)
  }
}
