// Who owns which map entry: freshness of generations, index ownership and the
// phases of a host delete, kept by every step of the system.
module FlowOwnership {
  import opened Prelude
  import opened FlowMaps
  import opened PacketPath
  import opened HostOperation
  import opened FlowSystem

  /** The three tuples of a flow are one rewrite apart. */
  predicate Shaped(f: FlowState) {
    f.target == f.original.(destination := f.target.destination) && f.reverse == Swap(f.target)
  }

  predicate BeforeState(st: Stage) {
    st.Pop? || st.Claim? || st.ReleaseClaim? || st.Reserve? || st.InsertState?
  }

  /** The creator has inserted exactly its first n index entries. */
  ghost predicate OwnsFirst(m: Maps, k: FlowKey, f: FlowState, n: nat) {
    && (n >= 1 ==> Names(m, f.original, k))
    && (n >= 2 ==> Names(m, f.target, k) && f.target != f.original)
    && (n >= 3 ==> Names(m, f.reverse, k) && f.reverse != f.original && f.reverse != f.target)
    && (forall t :: t in m.index && m.index[t] == k ==>
          (n >= 1 && t == f.original) || (n >= 2 && t == f.target) || (n >= 3 && t == f.reverse))
  }

  /** The rollback has removed every entry before position n. */
  ghost predicate OwnsFrom(m: Maps, k: FlowKey, f: FlowState, n: nat) {
    forall t :: t in m.index && m.index[t] == k ==>
      (n == 0 && t == f.original) || (n <= 1 && t == f.target) || (n <= 2 && t == f.reverse)
  }

  ghost predicate StageOk(m: Maps, k: FlowKey, f: FlowState, st: Stage) {
    && (BeforeState(st) ==> k !in m.states && k !in m.inflight && OwnsFirst(m, k, f, 0))
    && (!BeforeState(st) ==> k in m.states && m.states[k] == f)
    && match st
       case Claim(r) => r in m.settled && r !in m.states
       case InsertIndex(n) => n <= 2 && OwnsFirst(m, k, f, n) && k !in m.inflight
       case InsertFlight => OwnsFirst(m, k, f, 3) && k !in m.inflight
       case Activate => OwnsFirst(m, k, f, 3) && k in m.inflight
       case UndoCheck(n, _) => n <= 2 && OwnsFrom(m, k, f, n)
       case UndoDelete(n, _) => n <= 2 && OwnsFrom(m, k, f, n) && Names(m, TupleAt(f, n), k)
       case UndoFlight(_) => OwnsFrom(m, k, f, 3)
       case UndoState(_) => OwnsFrom(m, k, f, 3) && k !in m.inflight
       case _ => true
  }

  /** Nothing but its creator knows an unsettled generation's guard, journal or queue entry. */
  predicate Private(m: Maps, k: FlowKey) {
    && k.generation <= m.nextGeneration
    && k !in m.settled && k !in m.journal && k !in m.queue && k !in m.guard && k !in m.outcome
  }

  ghost predicate ThreadOk(m: Maps, pc: Pc) {
    match pc
    case Making(pkt, k, f, st) =>
      && Private(m, k)
      && f.lifecycle == Creating && f.original == pkt.tuple && Shaped(f)
      && StageOk(m, k, f, st)
    case Resolve(pkt, k) =>
      && k.generation <= m.nextGeneration
      && (k in m.states ==> HasTuple(m.states[k], pkt.tuple))
    case Inside(pkt, k, _) =>
      && k in m.settled
      && (k in m.states ==> HasTuple(m.states[k], pkt.tuple))
    case _ => true
  }

  /** Two threads never create the same generation, and nobody resolves one before its state exists. */
  predicate Apart(a: Pc, b: Pc) {
    && (a.Making? && b.Making? ==> a.key != b.key)
    && (a.Making? && BeforeState(a.stage) && b.Resolve? ==> a.key != b.key)
  }

  /** Index entries the running delete still has to visit. */
  predicate Visiting(h: Host, k: FlowKey, t: TupleKey) {
    && h.Busy? && h.op.key == k
    && (h.at.CheckIndex? || h.at.RemoveIndex?)
    && t in h.at.keys
  }

  /** An index entry names a live state of that tuple, or a deleted one whose cleanup is pending. */
  ghost predicate NamesOk(m: Maps, h: Host, k: FlowKey) {
    forall t :: t in m.index && m.index[t] == k ==>
      if k in m.states then HasTuple(m.states[k], t)
      else k in m.settled && (k in m.orphans || Visiting(h, k, t))
  }

  /** Everything the maps say about one generation. */
  ghost predicate KeyOk(m: Maps, h: Host, k: FlowKey) {
    && (k.generation > m.nextGeneration ==>
          k !in m.states && k !in m.settled && k !in m.inflight && forall t :: t in m.index ==> m.index[t] != k)
    && (k in m.states ==> (k in m.settled <==> IsActive(m, k)) && Shaped(m.states[k]))
    && (k in m.queue ==> k in m.settled && k !in m.states)
    && (k in m.journal || k in m.guard || k in m.outcome ==> k in m.settled)
    && NamesOk(m, h, k)
    && (IsActive(m, k) ==> OwnsFirst(m, k, m.states[k], 3) && k in m.inflight)
  }

  predicate Live(at: Phase) {
    at.ReadOldGuard? || at.DropOldGuard? || at.ClearOutcome? || at.InsertGuard?
    || Committing(at) || (at.ReadPending? && at.prog.guarded && !at.prog.stateDeleted)
  }

  predicate Gone(at: Phase) {
    at.ForgetGuard? || at.ForgetOutcome? || at.Scan? || at.CheckIndex? || at.RemoveIndex? || at.RemoveFlight?
    || (at.ReadPending? && (!at.prog.guarded || at.prog.stateDeleted)) || at.Publish?
  }

  /** Unless an index operation failed, every entry of the deleted flow is still on the list. */
  ghost predicate CleaningOk(m: Maps, k: FlowKey, keys: seq<TupleKey>, prog: Progress) {
    && (prog.stateDeleted || !prog.guarded)
    && if prog.faulted then k in m.orphans
       else forall t :: t in m.index && m.index[t] == k ==> t in keys
  }

  ghost predicate HostOk(m: Maps, h: Host) {
    h.Busy? ==>
      var k := h.op.key;
      && k in m.settled
      && (Live(h.at) ==> k in m.states)
      && (Gone(h.at) ==> k !in m.states)
      && match h.at
         case Journal(f) => SameTuples(f, m.states[k])
         case RemoveState(f) => SameTuples(f, m.states[k]) && k in m.journal
         case Unjournal => k in m.journal
         case CheckIndex(keys, prog) => CleaningOk(m, k, keys, prog)
         case RemoveIndex(keys, prog) => CleaningOk(m, k, keys, prog) && keys != [] && Names(m, keys[0], k)
         case RemoveFlight(prog) => prog.stateDeleted || !prog.guarded
         case Publish(prog) => prog.stateDeleted || !prog.guarded
         case _ => true
  }

  /** A state not yet out of its creator's hands has a creator. */
  ghost predicate HasCreator(threads: map<nat, Pc>, k: FlowKey) {
    exists p :: p in threads && Creates(threads[p], k)
  }

  ghost predicate Claimed(m: Maps, threads: map<nat, Pc>) {
    forall k :: k in m.states && k !in m.settled ==> HasCreator(threads, k)
  }

  ghost predicate Owned(s: System) {
    && (forall k :: KeyOk(s.m, s.host, k))
    && HostOk(s.m, s.host)
    && (forall p :: p in s.threads ==> ThreadOk(s.m, s.threads[p]))
    && (forall p, q :: p in s.threads && q in s.threads && p != q ==> Apart(s.threads[p], s.threads[q]))
    && Claimed(s.m, s.threads)
  }

  // ----- Frames: what a step leaves alone for everybody else -----

  /** The step did nothing to generation k that its other users can notice. */
  ghost predicate Untouched(m: Maps, m': Maps, k: FlowKey) {
    && (k in m.settled <==> k in m'.settled)
    && (k in m.states <==> k in m'.states)
    && (k in m.states ==>
          if k in m.settled then m'.states[k].(lastUsed := 0) == m.states[k].(lastUsed := 0)
          else m'.states[k] == m.states[k])
    && (forall t :: t in m.index && m.index[t] == k ==> t in m'.index && m'.index[t] == k)
    && (forall t :: t in m'.index && m'.index[t] == k ==> t in m.index && m.index[t] == k)
    && (k in m.inflight <==> k in m'.inflight)
    && (k in m'.journal ==> k in m.journal)
    && (k in m.journal && k in m.states ==> k in m'.journal)
    && (k in m'.queue ==> k in m.queue)
    && (k in m'.guard ==> k in m.guard)
    && (k in m'.outcome ==> k in m.outcome || k in m.settled)
    && (k in m.orphans <==> k in m'.orphans)
  }

  /** The step concerns one generation only, and time goes forward. */
  ghost predicate Frame(m: Maps, m': Maps, own: Option<FlowKey>) {
    && m.nextGeneration <= m'.nextGeneration
    && (forall k :: own != Some(k) ==> Untouched(m, m', k))
  }

  function OwnKey(pc: Pc): Option<FlowKey> {
    if pc.Making? then Some(pc.key) else None
  }

  lemma KeyKept(m: Maps, m': Maps, h: Host, h': Host, k: FlowKey)
    requires KeyOk(m, h, k) && Untouched(m, m', k) && m.nextGeneration <= m'.nextGeneration
    requires h == h' || (h.Busy? && h.op.key != k && (h'.Busy? ==> h'.op.key != k))
    ensures KeyOk(m', h', k)
  {
  }

  lemma ThreadKept(m: Maps, m': Maps, pc: Pc)
    requires ThreadOk(m, pc) && m.nextGeneration <= m'.nextGeneration
    requires pc.Making? || pc.Resolve? || pc.Inside? ==> Untouched(m, m', pc.key)
    requires forall k :: k in m.settled && k !in m.states ==> k in m'.settled && k !in m'.states
    ensures ThreadOk(m', pc)
  {
  }

  lemma HostKept(m: Maps, m': Maps, h: Host)
    requires HostOk(m, h)
    requires h.Busy? ==> Untouched(m, m', h.op.key)
    ensures HostOk(m', h)
  {
  }
}
