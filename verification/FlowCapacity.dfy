// Map capacity: with the configured slot limit the state map and the index map never fill.
module FlowCapacity {
  import opened Prelude
  import opened FlowMaps
  import opened PacketPath
  import opened HostOperation
  import opened FlowSystem
  import opened FlowOwnership
  import opened FlowOwnershipSteps
  import opened ThreadCounts
  import opened FlowSlots
  import opened FlowTheorems

  /** The slot of the generation being cleaned cannot be claimed before its release is published. */
  ghost predicate TransitOk(m: Maps, h: Host) {
    h.Busy? && (h.at.CheckIndex? || h.at.RemoveIndex? || h.at.RemoveFlight?) ==>
      if h.at.prog.guarded
      then h.op.key in m.journal && h.op.key !in m.queue
      else forall t :: t in m.index && m.index[t] == h.op.key ==> h.op.key in m.orphans
  }

  predicate ClaimOk(h: Host, pc: Pc) {
    (h.Busy? && (h.at.CheckIndex? || h.at.RemoveIndex? || h.at.RemoveFlight?) && h.at.prog.guarded
     && pc.Making? && pc.stage.Claim?) ==> pc.stage.release != h.op.key
  }

  ghost predicate Transit(s: System) {
    && TransitOk(s.m, s.host)
    && forall p :: p in s.threads ==> ClaimOk(s.host, s.threads[p])
  }

  lemma ThreadQueue(capacity: nat, m: Maps, pc: Pc, c: Choice, k: FlowKey)
    requires pc.Making? && pc.stage.Claim? ==> pc.stage.release != k
    requires k !in m.queue
    ensures var (m', pc') := ThreadStep(capacity, m, pc, c);
            && k !in m'.queue
            && (k in m.journal ==> k in m'.journal)
            && (pc'.Making? && pc'.stage.Claim? ==> pc'.stage.release != k)
  {
    if pc.Making? {
      MakeQueue(capacity, m, pc.pkt, pc.key, pc.flow, pc.stage, c, k);
    } else if pc.Inside? {
      InsideQueue(m, pc.pkt, pc.key, pc.at, c);
    }
  }

  lemma MakeQueue(capacity: nat, m: Maps, pkt: Packet, key: FlowKey, f: FlowState, st: Stage, c: Choice, k: FlowKey)
    requires st.Claim? ==> st.release != k
    requires k !in m.queue
    ensures var (m', pc') := MakeStep(capacity, m, pkt, key, f, st, c);
            && k !in m'.queue
            && (k in m.journal ==> k in m'.journal)
            && (pc'.Making? && pc'.stage.Claim? ==> pc'.stage.release != k)
  {
  }

  lemma InsideQueue(m: Maps, pkt: Packet, k: FlowKey, at: Spot, c: Choice)
    ensures var (m', pc') := InsideStep(m, pkt, k, at, c);
            m'.queue == m.queue && m'.journal == m.journal && !pc'.Making?
  {
  }

  lemma ThreadKeepsTransit(s: System, p: nat, c: Choice)
    requires Owned(s) && Transit(s) && p in s.threads
    ensures Transit(Apply(s, Run(p, c)))
  {
    var pc, h := s.threads[p], s.host;
    var s' := Apply(s, Run(p, c));
    if h.Busy? && (h.at.CheckIndex? || h.at.RemoveIndex? || h.at.RemoveFlight?) {
      assert ClaimOk(h, pc);
      if h.at.prog.guarded {
        ThreadQueue(s.capacity, s.m, pc, c, h.op.key);
      } else {
        assert ThreadOk(s.m, pc);
        ThreadStepFrame(s, p, c);
        assert Untouched(s.m, s'.m, h.op.key);
      }
    }
  }

  predicate Purging(h: Host) {
    h.Busy? && (h.at.CheckIndex? || h.at.RemoveIndex? || h.at.RemoveFlight?)
  }

  lemma NoPurging(m: Maps, h: Host, c: HostChoice)
    requires h.Busy? && !h.at.Scan? && !h.at.RemoveState? && !h.at.CheckIndex? && !h.at.RemoveIndex?
    ensures !Purging(HostStep(m, h, c).1)
  {
  }

  lemma CleaningStarts(m: Maps, h: Host, c: HostChoice)
    requires h.Busy? && (h.at.Scan? || h.at.RemoveState?) && HostOk(m, h) && KeyOk(m, h, h.op.key)
    ensures var (m', h') := HostStep(m, h, c); TransitOk(m', h')
  {
  }

  lemma ClaimStarts(m: Maps, h: Host, pc: Pc, c: HostChoice)
    requires h.Busy? && (h.at.Scan? || h.at.RemoveState?) && HostOk(m, h) && KeyOk(m, h, h.op.key) && ThreadOk(m, pc)
    ensures ClaimOk(HostStep(m, h, c).1, pc)
  {
  }

  lemma HostKeepsTransit(s: System, c: HostChoice)
    requires Owned(s) && Transit(s) && s.host.Busy?
    ensures Transit(Apply(s, HostRun(c)))
  {
    var h := s.host;
    assert KeyOk(s.m, h, h.op.key);
    if h.at.Scan? || h.at.RemoveState? {
      CleaningStarts(s.m, h, c);
      forall p | p in s.threads ensures ClaimOk(HostStep(s.m, h, c).1, s.threads[p]) {
        assert ThreadOk(s.m, s.threads[p]);
        ClaimStarts(s.m, h, s.threads[p], c);
      }
    } else if h.at.CheckIndex? || h.at.RemoveIndex? {
      CleaningTransit(s.m, h.op, h.at, c);
    } else {
      NoPurging(s.m, h, c);
    }
  }

  lemma CleaningTransit(m: Maps, op: DeleteOp, at: Phase, c: HostChoice)
    requires at.CheckIndex? || at.RemoveIndex?
    requires HostOk(m, Busy(op, at)) && TransitOk(m, Busy(op, at))
    ensures var (m', h') := CloseStep(m, op, at, c);
            && TransitOk(m', h')
            && h'.Busy? && h'.op == op && (h'.at.CheckIndex? || h'.at.RemoveIndex? || h'.at.RemoveFlight?)
            && h'.at.prog.guarded == at.prog.guarded
  {
  }

  lemma {:induction false} TransitAlways(run: seq<System>, i: nat)
    requires IsRun(run) && i < |run|
    ensures Transit(run[i])
  {
    if i > 0 {
      TransitAlways(run, i - 1);
      OwnedAlways(run, i - 1);
      var s, s' := run[i - 1], run[i];
      assert StepAt(run, i - 1);
      var a :| Enabled(s, a) && Targeted(s, a) && s' == Apply(s, a);
      match a
      case Run(p, c) => ThreadKeepsTransit(s, p, c);
      case HostRun(c) => HostKeepsTransit(s, c);
      case _ =>
    }
  }

  // ----- Counting index entries -----

  ghost function Entries(index: map<TupleKey, FlowKey>, k: FlowKey): set<TupleKey> {
    set t | t in index && index[t] == k
  }

  /** At most three entries per owner bound the whole index. */
  lemma {:induction false} AtMostThreeEach(index: map<TupleKey, FlowKey>, owners: set<FlowKey>)
    requires forall t :: t in index ==> index[t] in owners
    requires forall k :: k in owners ==> |Entries(index, k)| <= 3
    ensures |index| <= 3 * |owners|
    decreases |owners|
  {
    if owners == {} {
      assert index.Keys == {};
    } else {
      var k :| k in owners;
      var rest := map t | t in index && index[t] != k :: index[t];
      assert index.Keys == rest.Keys + Entries(index, k);
      forall x | x in owners - {k} ensures |Entries(rest, x)| <= 3 {
        assert Entries(rest, x) == Entries(index, x);
      }
      AtMostThreeEach(rest, owners - {k});
    }
  }

  lemma OneShort(index: map<TupleKey, FlowKey>, owners: set<FlowKey>, k: FlowKey)
    requires k in owners && |Entries(index, k)| <= 2
    requires forall t :: t in index ==> index[t] in owners
    requires forall x :: x in owners ==> |Entries(index, x)| <= 3
    ensures |index| < 3 * |owners|
  {
    var rest := map t | t in index && index[t] != k :: index[t];
    assert index.Keys == rest.Keys + Entries(index, k);
    forall x | x in owners - {k} ensures |Entries(rest, x)| <= 3 {
      assert Entries(rest, x) == Entries(index, x);
    }
    AtMostThreeEach(rest, owners - {k});
  }

  lemma FewTuples(s: set<TupleKey>, f: FlowState)
    requires forall t :: t in s ==> HasTuple(f, t)
    ensures |s| <= 3
  {
    SubsetSize(s, {f.original, f.target, f.reverse});
  }

  // ----- No generation ever has more than three entries -----

  ghost predicate AtMostThree(index: map<TupleKey, FlowKey>, k: FlowKey) {
    |Entries(index, k)| <= 3
  }

  lemma FewerEntries(index: map<TupleKey, FlowKey>, index': map<TupleKey, FlowKey>, k: FlowKey)
    requires AtMostThree(index, k) && forall t :: t in index' && index'[t] == k ==> t in index && index[t] == k
    ensures AtMostThree(index', k)
  {
    SubsetSize(Entries(index', k), Entries(index, k));
  }

  lemma LiveHasThree(s: System, k: FlowKey)
    requires Owned(s) && (k in s.m.states || k !in s.m.settled)
    ensures AtMostThree(s.m.index, k)
  {
    assert KeyOk(s.m, s.host, k);
    if k in s.m.states { FewTuples(Entries(s.m.index, k), s.m.states[k]); } else { assert Entries(s.m.index, k) == {}; }
  }

  /** The entries of a retired generation only shrink. */
  lemma RetiredShrinks(s: System, s': System, k: FlowKey)
    requires Owned(s) && Next(s, s') && Retired(s'.m, k)
    ensures forall t :: t in s'.m.index && s'.m.index[t] == k ==> t in s.m.index && s.m.index[t] == k
  {
    var a :| Enabled(s, a) && Targeted(s, a) && s' == Apply(s, a);
    if a.Run? {
      ThreadShrinks(s, a.p, a.c, k);
    } else if a.HostRun? {
      IndexShrinks(s.m, s.host.op, s.host.at, a.hc);
    }
  }

  lemma ThreadShrinks(s: System, p: nat, c: Choice, k: FlowKey)
    requires Owned(s) && p in s.threads && Retired(ThreadStep(s.capacity, s.m, s.threads[p], c).0, k)
    ensures Untouched(s.m, ThreadStep(s.capacity, s.m, s.threads[p], c).0, k)
  {
    var pc := s.threads[p];
    ThreadStepFrame(s, p, c);
    assert ThreadOk(s.m, pc);
    if pc.Making? { OwnNotRetired(s.capacity, s.m, pc.pkt, pc.key, pc.flow, pc.stage, c); }
  }

  lemma OwnNotRetired(capacity: nat, m: Maps, pkt: Packet, k: FlowKey, f: FlowState, st: Stage, c: Choice)
    requires k !in m.settled
    ensures !Retired(MakeStep(capacity, m, pkt, k, f, st, c).0, k)
  {
  }

  lemma ThreeNext(run: seq<System>, i: nat, k: FlowKey)
    requires IsRun(run) && i + 1 < |run| && AtMostThree(run[i].m.index, k) && Retired(run[i + 1].m, k)
    ensures AtMostThree(run[i + 1].m.index, k)
  {
    OwnedAlways(run, i);
    var s, s' := run[i], run[i + 1];
    assert StepAt(run, i);
    RetiredShrinks(s, s', k);
    FewerEntries(s.m.index, s'.m.index, k);
  }

  lemma {:induction false} ThreeAtMost(run: seq<System>, i: nat, k: FlowKey)
    requires IsRun(run) && i < |run|
    ensures AtMostThree(run[i].m.index, k)
  {
    OwnedAlways(run, i);
    if i == 0 || !Retired(run[i].m, k) {
      LiveHasThree(run[i], k);
    } else {
      ThreeAtMost(run, i - 1, k);
      ThreeNext(run, i - 1, k);
    }
  }

  // ----- The bound -----

  /** Who may have index entries: live, journaled and orphaned generations. */
  function Holders(m: Maps): set<FlowKey> {
    Owing(m) + m.orphans
  }

  lemma EntryHeld(s: System, t: TupleKey)
    requires Owned(s) && Transit(s) && t in s.m.index
    ensures s.m.index[t] in Holders(s.m)
  {
    assert KeyOk(s.m, s.host, s.m.index[t]);
  }

  lemma FewerThanThree(m: Maps, k: FlowKey, f: FlowState, n: nat)
    requires n <= 2 && OwnsFirst(m, k, f, n)
    ensures |Entries(m.index, k)| <= 2
  {
    SubsetSize(Entries(m.index, k), {f.original, f.target});
  }

  /** The index holds at most three entries for every live, journaled or orphaned generation, in every run. */
  lemma IndexBound(run: seq<System>, i: nat)
    requires IsRun(run) && i < |run|
    ensures |run[i].m.index| <= 3 * |Holders(run[i].m)|
  {
    OwnedAlways(run, i);
    TransitAlways(run, i);
    var s := run[i];
    forall t | t in s.m.index ensures s.m.index[t] in Holders(s.m) { EntryHeld(s, t); }
    forall k ensures |Entries(s.m.index, k)| <= 3 { ThreeAtMost(run, i, k); }
    AtMostThreeEach(s.m.index, Holders(s.m));
  }

  /** A creator that has entries to insert leaves room for one more. */
  lemma RoomForEntry(run: seq<System>, i: nat, p: nat)
    requires IsRun(run) && i < |run| && p in run[i].threads
    requires run[i].threads[p].Making? && run[i].threads[p].stage.InsertIndex?
    ensures |run[i].m.index| < 3 * |Holders(run[i].m)|
  {
    OwnedAlways(run, i);
    TransitAlways(run, i);
    var s := run[i];
    var pc := s.threads[p];
    assert ThreadOk(s.m, pc);
    FewerThanThree(s.m, pc.key, pc.flow, pc.stage.n);
    forall t | t in s.m.index ensures s.m.index[t] in Holders(s.m) { EntryHeld(s, t); }
    forall k ensures |Entries(s.m.index, k)| <= 3 { ThreeAtMost(run, i, k); }
    OneShort(s.m.index, Holders(s.m), pc.key);
  }

  lemma HoldersCount(m: Maps)
    ensures |Holders(m)| <= |Owing(m)| + |m.orphans|
  {
    assert Holders(m) == Owing(m) + (m.orphans - Owing(m));
    SubsetSize(m.orphans - Owing(m), m.orphans);
  }

  /**
   * Under an unchanged capacity the states and the granted reservations stay within it, the index within three
   * times the capacity and the orphaned generations, and an insertion finds strictly less.
   */
  lemma CapacitySafety(run: seq<System>, i: nat)
    requires IsRun(run) && i < |run| && run[0].capacity != 0
    requires forall j :: 0 <= j <= i ==> run[j].capacity == run[0].capacity
    ensures |run[i].m.states| + |Members(run[i].threads, Granted)| <= run[0].capacity
    ensures |run[i].m.index| <= 3 * (run[0].capacity + |run[i].m.orphans|)
    ensures forall p :: p in run[i].threads && run[i].threads[p].Making? ==>
              && (run[i].threads[p].stage.InsertState? ==> |run[i].m.states| < run[0].capacity)
              && (run[i].threads[p].stage.InsertIndex? ==>
                    |run[i].m.index| < 3 * (run[0].capacity + |run[i].m.orphans|))
  {
    BoundedAlways(run, i);
    IndexBound(run, i);
    var s := run[i];
    HoldersCount(s.m);
    SubsetSize(s.m.states.Keys, Owing(s.m));
    forall p | p in s.threads && s.threads[p].Making?
      ensures s.threads[p].stage.InsertState? ==> |s.m.states| < s.capacity
      ensures s.threads[p].stage.InsertIndex? ==> |s.m.index| < 3 * (s.capacity + |s.m.orphans|)
    {
      if s.threads[p].stage.InsertState? { assert p in Members(s.threads, Granted); }
      if s.threads[p].stage.InsertIndex? { RoomForEntry(run, i, p); }
    }
  }
}
