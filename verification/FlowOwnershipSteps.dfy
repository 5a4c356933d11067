// Every step keeps the ownership invariant.
module FlowOwnershipSteps {
  import opened Prelude
  import opened FlowMaps
  import opened PacketPath
  import opened HostOperation
  import opened FlowSystem
  import opened FlowOwnership

  /** A creator's step keeps its own generation in order and touches no other. */
  ghost predicate MadeOk(m: Maps, h: Host, k: FlowKey, m': Maps, pc': Pc) {
    && Frame(m, m', Some(k)) && KeyOk(m', h, k) && ThreadOk(m', pc')
    && (pc'.Making? ==> pc'.key == k)
    && (k in m.states && k in m'.states ==> SameTuples(m.states[k], m'.states[k]))
  }

  /** Only slot counters, the generation counter and the history moved. */
  predicate CountersOnly(m: Maps, m': Maps) {
    && m.nextGeneration <= m'.nextGeneration
    && m' == m.(active := m'.active, giveUps := m'.giveUps, nextGeneration := m'.nextGeneration)
  }

  lemma CountersFrame(m: Maps, m': Maps)
    requires CountersOnly(m, m')
    ensures Frame(m, m', None)
  {
  }

  lemma PopKeeps(capacity: nat, m: Maps, h: Host, pc: Pc, c: Choice)
    requires pc.Making? && KeyOk(m, h, pc.key) && ThreadOk(m, pc) && pc.stage.Pop?
    requires m.queue != [] ==> KeyOk(m, h, m.queue[0])
    ensures var (m', pc') := ThreadStep(capacity, m, pc, c);
            MadeOk(m, h, pc.key, m', pc')
  {
  }

  lemma ClaimKeeps(capacity: nat, m: Maps, h: Host, pc: Pc, c: Choice)
    requires pc.Making? && KeyOk(m, h, pc.key) && ThreadOk(m, pc) && pc.stage.Claim?
    ensures var (m', pc') := ThreadStep(capacity, m, pc, c);
            MadeOk(m, h, pc.key, m', pc')
  {
  }

  lemma ReserveKeeps(capacity: nat, m: Maps, h: Host, pc: Pc, c: Choice)
    requires pc.Making? && KeyOk(m, h, pc.key) && ThreadOk(m, pc) && (pc.stage.ReleaseClaim? || pc.stage.Reserve?)
    ensures var (m', pc') := ThreadStep(capacity, m, pc, c);
            MadeOk(m, h, pc.key, m', pc')
  {
    var (m', pc') := ThreadStep(capacity, m, pc, c);
    CountersFrame(m, m');
    KeyKept(m, m', h, h, pc.key);
  }

  lemma InsertStateKeeps(capacity: nat, m: Maps, h: Host, pc: Pc, c: Choice)
    requires pc.Making? && KeyOk(m, h, pc.key) && ThreadOk(m, pc) && pc.stage.InsertState?
    ensures var (m', pc') := ThreadStep(capacity, m, pc, c);
            MadeOk(m, h, pc.key, m', pc')
  {
  }

  lemma InsertIndexKeeps(capacity: nat, m: Maps, h: Host, pc: Pc, c: Choice)
    requires pc.Making? && KeyOk(m, h, pc.key) && ThreadOk(m, pc) && pc.stage.InsertIndex?
    ensures var (m', pc') := ThreadStep(capacity, m, pc, c);
            MadeOk(m, h, pc.key, m', pc')
  {
  }

  lemma ActivateKeeps(capacity: nat, m: Maps, h: Host, pc: Pc, c: Choice)
    requires pc.Making? && KeyOk(m, h, pc.key) && ThreadOk(m, pc) && (pc.stage.InsertFlight? || pc.stage.Activate?)
    ensures var (m', pc') := ThreadStep(capacity, m, pc, c);
            MadeOk(m, h, pc.key, m', pc')
  {
  }

  lemma UndoIndexKeeps(capacity: nat, m: Maps, h: Host, pc: Pc, c: Choice)
    requires pc.Making? && KeyOk(m, h, pc.key) && ThreadOk(m, pc) && (pc.stage.UndoCheck? || pc.stage.UndoDelete?)
    ensures var (m', pc') := ThreadStep(capacity, m, pc, c);
            MadeOk(m, h, pc.key, m', pc')
  {
  }

  lemma UndoStateKeeps(capacity: nat, m: Maps, h: Host, pc: Pc, c: Choice)
    requires pc.Making? && KeyOk(m, h, pc.key) && ThreadOk(m, pc) && (pc.stage.UndoFlight? || pc.stage.UndoState?)
    ensures var (m', pc') := ThreadStep(capacity, m, pc, c);
            MadeOk(m, h, pc.key, m', pc')
  {
  }

  lemma MakeKeeps(capacity: nat, m: Maps, h: Host, pc: Pc, c: Choice)
    requires pc.Making? && ThreadOk(m, pc) && forall k :: KeyOk(m, h, k)
    ensures var (m', pc') := ThreadStep(capacity, m, pc, c);
            MadeOk(m, h, pc.key, m', pc')
  {
    match pc.stage
    case Pop => PopKeeps(capacity, m, h, pc, c);
    case Claim(_) => ClaimKeeps(capacity, m, h, pc, c);
    case ReleaseClaim => ReserveKeeps(capacity, m, h, pc, c);
    case Reserve => ReserveKeeps(capacity, m, h, pc, c);
    case InsertState => InsertStateKeeps(capacity, m, h, pc, c);
    case InsertIndex(_) => InsertIndexKeeps(capacity, m, h, pc, c);
    case InsertFlight => ActivateKeeps(capacity, m, h, pc, c);
    case Activate => ActivateKeeps(capacity, m, h, pc, c);
    case UndoCheck(_, _) => UndoIndexKeeps(capacity, m, h, pc, c);
    case UndoDelete(_, _) => UndoIndexKeeps(capacity, m, h, pc, c);
    case UndoFlight(_) => UndoStateKeeps(capacity, m, h, pc, c);
    case UndoState(_) => UndoStateKeeps(capacity, m, h, pc, c);
  }

  lemma GuardFrame(m: Maps, k: FlowKey, g: Guard, c: Choice)
    requires k in m.settled
    ensures Frame(m, GuardStep(m, k, g, c).0, None)
  {
  }

  lemma MutateFrame(m: Maps, pkt: Packet, k: FlowKey, at: Spot, c: Choice)
    requires k in m.settled && !at.First? && !at.Second?
    ensures Frame(m, InsideStep(m, pkt, k, at, c).0, None)
  {
  }

  /** Outside creation a thread touches no generation's ownership. */
  lemma InsideKeeps(capacity: nat, m: Maps, pc: Pc, c: Choice)
    requires pc.Inside? && ThreadOk(m, pc)
    ensures var (m', pc') := ThreadStep(capacity, m, pc, c);
            && Frame(m, m', None) && ThreadOk(m', pc')
            && (pc'.Inside? || pc'.Idle?)
  {
    var (m', pc') := ThreadStep(capacity, m, pc, c);
    if pc.at.First? || pc.at.Second? {
      GuardFrame(m, pc.key, pc.at.g, c);
    } else {
      MutateFrame(m, pc.pkt, pc.key, pc.at, c);
    }
    assert Untouched(m, m', pc.key);
  }

  lemma OutsideKeeps(capacity: nat, m: Maps, h: Host, pc: Pc, c: Choice)
    requires !pc.Making? && !pc.Inside? && ThreadOk(m, pc)
    requires forall k :: KeyOk(m, h, k)
    ensures var (m', pc') := ThreadStep(capacity, m, pc, c);
            && Frame(m, m', None) && ThreadOk(m', pc')
            && (pc'.Making? ==> pc'.key.generation > m.nextGeneration)
  {
    var (m', pc') := ThreadStep(capacity, m, pc, c);
    CountersFrame(m, m');
    match pc
    case Idle => LookupOk(m, h, c.pkt);
    case Relook(pkt) => LookupOk(m, h, pkt);
    case Resolve(_, k) => assert KeyOk(m, h, k);
    case Allocate(pkt) => if c.target.Some? { AllocateOk(m, h, pkt, c); }
    case _ =>
  }

  lemma AllocateOk(m: Maps, h: Host, pkt: Packet, c: Choice)
    requires forall k :: KeyOk(m, h, k)
    requires c.target.Some?
    ensures var (m', pc') := ThreadStep(0, m, Allocate(pkt), c);
            ThreadOk(m', pc')
  {
    assert KeyOk(m, h, FlowKey(c.flowId, m.nextGeneration + 1));
  }

  lemma LookupOk(m: Maps, h: Host, pkt: Packet)
    requires forall k :: KeyOk(m, h, k)
    ensures pkt.tuple in m.index ==> ThreadOk(m, Resolve(pkt, m.index[pkt.tuple]))
  {
    if pkt.tuple in m.index {
      assert KeyOk(m, h, m.index[pkt.tuple]);
    }
  }

  /** A thread step concerns at most the generation its thread is creating. */
  lemma ThreadStepFrame(s: System, p: nat, c: Choice)
    requires Owned(s) && p in s.threads
    ensures Frame(s.m, ThreadStep(s.capacity, s.m, s.threads[p], c).0, OwnKey(s.threads[p]))
  {
    var pc := s.threads[p];
    assert ThreadOk(s.m, pc);
    if pc.Making? {
      MakeKeeps(s.capacity, s.m, s.host, pc, c);
    } else if pc.Inside? {
      InsideKeeps(s.capacity, s.m, pc, c);
    } else {
      OutsideKeeps(s.capacity, s.m, s.host, pc, c);
    }
  }

  lemma OtherThreadKept(m: Maps, h: Host, own: Pc, m': Maps, pc': Pc, other: Pc)
    requires ThreadOk(m, own) && ThreadOk(m, other) && Apart(own, other) && Apart(other, own)
    requires if own.Making? then MadeOk(m, h, own.key, m', pc') else Frame(m, m', None)
    ensures ThreadOk(m', other)
  {
    if other.Resolve? && own.Making? && own.key == other.key {
    } else if other.Making? || other.Resolve? || other.Inside? {
      assert Untouched(m, m', other.key);
      assert forall k :: k in m.settled && k !in m.states ==> Untouched(m, m', k);
      ThreadKept(m, m', other);
    }
  }

  /** A creator leaves its generation only once it is ACTIVE or has no state. */
  lemma CreatorLeaves(capacity: nat, m: Maps, pkt: Packet, k: FlowKey, f: FlowState, st: Stage, c: Choice)
    requires StageOk(m, k, f, st)
    ensures var (m', pc') := MakeStep(capacity, m, pkt, k, f, st, c);
            Creates(pc', k) || k in m'.settled || k !in m'.states
  {
  }

  lemma ThreadKeepsClaimed(s: System, p: nat, c: Choice)
    requires Owned(s) && p in s.threads
    ensures var s' := Apply(s, Run(p, c)); Claimed(s'.m, s'.threads)
  {
    var pc := s.threads[p];
    var (m', pc') := ThreadStep(s.capacity, s.m, pc, c);
    var threads' := s.threads[p := pc'];
    ThreadStepFrame(s, p, c);
    assert ThreadOk(s.m, pc);
    forall k | k in m'.states && k !in m'.settled ensures HasCreator(threads', k) {
      if Creates(pc, k) {
        CreatorLeaves(s.capacity, s.m, pc.pkt, k, pc.flow, pc.stage, c);
        assert p in threads' && Creates(threads'[p], k);
      } else {
        assert Untouched(s.m, m', k);
        var q :| q in s.threads && Creates(s.threads[q], k);
        assert q in threads' && Creates(threads'[q], k);
      }
    }
  }

  lemma HostKeepsClaimed(m: Maps, threads: map<nat, Pc>, k: FlowKey, m': Maps, h': Host)
    requires Claimed(m, threads) && k in m.settled && HostStepOk(m, k, m', h')
    ensures Claimed(m', threads)
  {
    forall x | x in m'.states && x !in m'.settled ensures HasCreator(threads, x) {
      assert Untouched(m, m', x);
    }
  }

  /** A classifier thread's step keeps the ownership invariant. */
  lemma ThreadKeepsOwned(s: System, p: nat, c: Choice)
    requires Owned(s) && p in s.threads
    ensures Owned(Apply(s, Run(p, c)))
  {
    var pc := s.threads[p];
    var (m', pc') := ThreadStep(s.capacity, s.m, pc, c);
    var s' := Apply(s, Run(p, c));
    assert ThreadOk(s.m, pc);
    if pc.Making? {
      MakeKeeps(s.capacity, s.m, s.host, pc, c);
    } else if pc.Inside? {
      InsideKeeps(s.capacity, s.m, pc, c);
    } else {
      OutsideKeeps(s.capacity, s.m, s.host, pc, c);
    }
    forall k ensures KeyOk(m', s.host, k) {
      assert KeyOk(s.m, s.host, k);
      if OwnKey(pc) != Some(k) { KeyKept(s.m, m', s.host, s.host, k); }
    }
    HostKept(s.m, m', s.host);
    forall q | q in s'.threads ensures ThreadOk(m', s'.threads[q]) {
      if q != p { OtherThreadKept(s.m, s.host, pc, m', pc', s.threads[q]); }
    }
    forall q | q in s.threads && q != p ensures Apart(pc', s.threads[q]) && Apart(s.threads[q], pc') {
      StillApart(s, p, c, q);
    }
    ThreadKeepsClaimed(s, p, c);
  }

  lemma StillApart(s: System, p: nat, c: Choice, q: nat)
    requires Owned(s) && p in s.threads && q in s.threads && p != q
    requires var pc' := ThreadStep(s.capacity, s.m, s.threads[p], c).1;
             pc'.Making? ==> pc'.key.generation > s.m.nextGeneration || OwnKey(s.threads[p]) == Some(pc'.key)
    ensures var pc' := ThreadStep(s.capacity, s.m, s.threads[p], c).1;
            Apart(pc', s.threads[q]) && Apart(s.threads[q], pc')
  {
    assert ThreadOk(s.m, s.threads[p]) && ThreadOk(s.m, s.threads[q]);
    assert Apart(s.threads[p], s.threads[q]) && Apart(s.threads[q], s.threads[p]);
  }

  // ----- The host -----

  /** A host step concerns its own generation only and can remove its state but never add one. */
  ghost predicate HostStepOk(m: Maps, k: FlowKey, m': Maps, h': Host) {
    && Frame(m, m', Some(k)) && KeyOk(m', h', k) && HostOk(m', h')
    && (h'.Busy? ==> h'.op.key == k)
    && m'.settled == m.settled
    && (k in m'.states ==> k in m.states && m'.states[k] == m.states[k])
  }

  predicate Cleaning(h: Host) {
    h.Busy? && (h.at.CheckIndex? || h.at.RemoveIndex?)
  }

  /** Guard and outcome entries of the deleted generation say nothing about ownership. */
  lemma QuietKeeps(m: Maps, h: Host, m': Maps, h': Host)
    requires h.Busy? && KeyOk(m, h, h.op.key) && h.op.key in m.settled
    requires !Cleaning(h) && !Cleaning(h')
    requires m' == m.(guard := m'.guard, outcome := m'.outcome, finished := m'.finished)
    requires m'.guard.Keys <= m.guard.Keys + {h.op.key}
    requires m'.outcome.Keys <= m.outcome.Keys + {h.op.key}
    ensures Frame(m, m', Some(h.op.key)) && KeyOk(m', h', h.op.key)
  {
  }

  lemma ForgetKeeps(m: Maps, h: Host, c: HostChoice)
    requires h.Busy? && HostOk(m, h) && KeyOk(m, h, h.op.key)
    requires h.at.ReadInitial? || h.at.ForgetGuard? || h.at.ForgetOutcome?
    ensures var (m', h') := HostStep(m, h, c);
            HostStepOk(m, h.op.key, m', h')
  {
    var (m', h') := HostStep(m, h, c);
    QuietKeeps(m, h, m', h');
  }

  lemma OldGuardKeeps(m: Maps, h: Host, c: HostChoice)
    requires h.Busy? && (h.at.ReadOldGuard? || h.at.DropOldGuard?) && HostOk(m, h) && KeyOk(m, h, h.op.key)
    ensures var (m', h') := HostStep(m, h, c);
            HostStepOk(m, h.op.key, m', h')
  {
    var (m', h') := HostStep(m, h, c);
    QuietKeeps(m, h, m', h');
  }

  lemma InsertGuardKeeps(m: Maps, h: Host, c: HostChoice)
    requires h.Busy? && (h.at.ClearOutcome? || h.at.InsertGuard?) && HostOk(m, h) && KeyOk(m, h, h.op.key)
    ensures var (m', h') := HostStep(m, h, c);
            HostStepOk(m, h.op.key, m', h')
  {
    var (m', h') := HostStep(m, h, c);
    QuietKeeps(m, h, m', h');
  }

  lemma DrainKeeps(m: Maps, h: Host, c: HostChoice)
    requires h.Busy? && (h.at.Drain? || h.at.ReadStable? || h.at.Quiesce?) && HostOk(m, h) && KeyOk(m, h, h.op.key)
    ensures var (m', h') := HostStep(m, h, c);
            HostStepOk(m, h.op.key, m', h')
  {
    var (m', h') := HostStep(m, h, c);
    QuietKeeps(m, h, m', h');
  }

  lemma CommitKeeps(m: Maps, h: Host, c: HostChoice)
    requires h.Busy? && (h.at.Commit? || h.at.ReadCommitted?) && HostOk(m, h) && KeyOk(m, h, h.op.key)
    ensures var (m', h') := HostStep(m, h, c);
            HostStepOk(m, h.op.key, m', h')
  {
    var (m', h') := HostStep(m, h, c);
    QuietKeeps(m, h, m', h');
  }

  lemma RestoreKeeps(m: Maps, h: Host, c: HostChoice)
    requires h.Busy? && (h.at.RemoveGuard? || h.at.RemoveOutcome?) && HostOk(m, h) && KeyOk(m, h, h.op.key)
    ensures var (m', h') := HostStep(m, h, c);
            HostStepOk(m, h.op.key, m', h')
  {
    var (m', h') := HostStep(m, h, c);
    QuietKeeps(m, h, m', h');
  }

  lemma ScanKeeps(m: Maps, h: Host, c: HostChoice)
    requires h.Busy? && h.at.Scan? && HostOk(m, h) && KeyOk(m, h, h.op.key)
    ensures var (m', h') := HostStep(m, h, c);
            HostStepOk(m, h.op.key, m', h')
  {
  }

  lemma JournalKeeps(m: Maps, h: Host, c: HostChoice)
    requires h.Busy? && (h.at.Journal? || h.at.Unjournal?) && HostOk(m, h) && KeyOk(m, h, h.op.key)
    ensures var (m', h') := HostStep(m, h, c);
            HostStepOk(m, h.op.key, m', h')
  {
  }

  lemma RemoveStateKeeps(m: Maps, h: Host, c: HostChoice)
    requires h.Busy? && h.at.RemoveState? && HostOk(m, h) && KeyOk(m, h, h.op.key)
    ensures var (m', h') := HostStep(m, h, c);
            HostStepOk(m, h.op.key, m', h')
  {
  }

  lemma InTail<T>(keys: seq<T>)
    requires keys != []
    ensures forall t :: t in keys && t != keys[0] ==> t in keys[1..]
  {
    assert keys == [keys[0]] + keys[1..];
  }

  lemma CleanedKeeps(m: Maps, h: Host, c: HostChoice)
    requires h.Busy? && h.at.CheckIndex? && h.at.keys == [] && HostOk(m, h) && KeyOk(m, h, h.op.key)
    ensures var (m', h') := HostStep(m, h, c);
            HostStepOk(m, h.op.key, m', h')
  {
  }

  lemma CheckIndexKeeps(m: Maps, h: Host, c: HostChoice)
    requires h.Busy? && h.at.CheckIndex? && h.at.keys != [] && HostOk(m, h) && KeyOk(m, h, h.op.key)
    ensures var (m', h') := HostStep(m, h, c);
            HostStepOk(m, h.op.key, m', h')
  {
    InTail(h.at.keys);
  }

  lemma RemoveIndexKeeps(m: Maps, h: Host, c: HostChoice)
    requires h.Busy? && h.at.RemoveIndex? && HostOk(m, h) && KeyOk(m, h, h.op.key)
    ensures var (m', h') := HostStep(m, h, c);
            HostStepOk(m, h.op.key, m', h')
  {
    InTail(h.at.keys);
  }

  lemma RemoveFlightKeeps(m: Maps, h: Host, c: HostChoice)
    requires h.Busy? && h.at.RemoveFlight? && HostOk(m, h) && KeyOk(m, h, h.op.key)
    ensures var (m', h') := HostStep(m, h, c);
            HostStepOk(m, h.op.key, m', h')
  {
  }

  lemma ReadPendingKeeps(m: Maps, h: Host, c: HostChoice)
    requires h.Busy? && h.at.ReadPending? && HostOk(m, h) && KeyOk(m, h, h.op.key)
    ensures var (m', h') := HostStep(m, h, c);
            HostStepOk(m, h.op.key, m', h')
  {
    var (m', h') := HostStep(m, h, c);
    QuietKeeps(m, h, m', h');
  }

  lemma QueuedKeeps(m: Maps, h: Host, m': Maps, h': Host)
    requires h.Busy? && KeyOk(m, h, h.op.key) && h.op.key in m.settled && h.op.key !in m.states
    requires !Cleaning(h) && !Cleaning(h')
    requires m' == m.(queue := m.queue + [h.op.key], finished := m'.finished)
    ensures Frame(m, m', Some(h.op.key)) && KeyOk(m', h', h.op.key)
  {
  }

  lemma PublishKeeps(m: Maps, h: Host, c: HostChoice)
    requires h.Busy? && h.at.Publish? && HostOk(m, h) && KeyOk(m, h, h.op.key)
    ensures var (m', h') := HostStep(m, h, c);
            HostStepOk(m, h.op.key, m', h')
  {
    var (m', h') := HostStep(m, h, c);
    if c.ok { QueuedKeeps(m, h, m', h'); } else { QuietKeeps(m, h, m', h'); }
  }

  lemma HostPhaseKeeps(m: Maps, h: Host, c: HostChoice)
    requires h.Busy? && HostOk(m, h) && KeyOk(m, h, h.op.key)
    ensures var (m', h') := HostStep(m, h, c);
            HostStepOk(m, h.op.key, m', h')
  {
    var at := h.at;
    if at.ReadInitial? || at.ForgetGuard? || at.ForgetOutcome? { ForgetKeeps(m, h, c); }
    else if at.Scan? { ScanKeeps(m, h, c); }
    else if at.ReadOldGuard? || at.DropOldGuard? { OldGuardKeeps(m, h, c); }
    else if at.ClearOutcome? || at.InsertGuard? { InsertGuardKeeps(m, h, c); }
    else if at.Drain? || at.ReadStable? || at.Quiesce? { DrainKeeps(m, h, c); }
    else if at.Commit? || at.ReadCommitted? { CommitKeeps(m, h, c); }
    else if at.Journal? || at.Unjournal? { JournalKeeps(m, h, c); }
    else if at.RemoveState? { RemoveStateKeeps(m, h, c); }
    else if at.CheckIndex? { if at.keys == [] { CleanedKeeps(m, h, c); } else { CheckIndexKeeps(m, h, c); } }
    else if at.RemoveIndex? { RemoveIndexKeeps(m, h, c); }
    else if at.RemoveFlight? { RemoveFlightKeeps(m, h, c); }
    else if at.ReadPending? { ReadPendingKeeps(m, h, c); }
    else if at.Publish? { PublishKeeps(m, h, c); }
    else { RestoreKeeps(m, h, c); }
  }

  lemma HostStepFrame(s: System, c: HostChoice)
    requires Owned(s) && s.host.Busy?
    ensures var (m', h') := HostStep(s.m, s.host, c);
            HostStepOk(s.m, s.host.op.key, m', h')
  {
    assert KeyOk(s.m, s.host, s.host.op.key);
    HostPhaseKeeps(s.m, s.host, c);
  }

  lemma ThreadKeptByHost(m: Maps, k: FlowKey, m': Maps, h': Host, pc: Pc)
    requires ThreadOk(m, pc) && k in m.settled && HostStepOk(m, k, m', h')
    ensures ThreadOk(m', pc)
  {
    if (pc.Making? || pc.Resolve? || pc.Inside?) && pc.key != k {
      assert Untouched(m, m', pc.key);
      assert forall x :: x in m.settled && x !in m.states && x != k ==> Untouched(m, m', x);
      ThreadKept(m, m', pc);
    }
  }

  /** A host step keeps the ownership invariant. */
  lemma HostKeepsOwned(s: System, c: HostChoice)
    requires Owned(s) && s.host.Busy?
    ensures Owned(Apply(s, HostRun(c)))
  {
    var k := s.host.op.key;
    var (m', h') := HostStep(s.m, s.host, c);
    assert KeyOk(s.m, s.host, k);
    HostPhaseKeeps(s.m, s.host, c);
    forall x ensures KeyOk(m', h', x) {
      assert KeyOk(s.m, s.host, x);
      if x != k { KeyKept(s.m, m', s.host, h', x); }
    }
    forall p | p in s.threads ensures ThreadOk(m', s.threads[p]) {
      ThreadKeptByHost(s.m, k, m', h', s.threads[p]);
    }
    HostKeepsClaimed(s.m, s.threads, k, m', h');
  }

  /** A delete takes an unclaimed generation out of everybody's hands, in name only. */
  lemma BeginKeepsOwned(s: System, op: DeleteOp)
    requires Owned(s) && s.host.Waiting? && Targetable(s, op.key)
    ensures Owned(Apply(s, Begin(op)))
  {
    var s' := Apply(s, Begin(op));
    var k := op.key;
    assert KeyOk(s.m, s.host, k);
    assert k in s.m.states ==> k in s.m.settled;
    forall x ensures KeyOk(s'.m, s'.host, x) { assert KeyOk(s.m, s.host, x); }
    forall p | p in s.threads ensures ThreadOk(s'.m, s.threads[p]) {
      assert ThreadOk(s.m, s.threads[p]) && !Creates(s.threads[p], k);
    }
  }

  lemma SpawnKeepsOwned(s: System, p: nat)
    requires Owned(s) && p !in s.threads
    ensures Owned(Apply(s, Spawn(p)))
  {
    var s' := Apply(s, Spawn(p));
    forall k ensures KeyOk(s'.m, s'.host, k) { assert KeyOk(s.m, s.host, k); }
    forall k | k in s.m.states && k !in s.m.settled ensures HasCreator(s'.threads, k) {
      var q :| q in s.threads && Creates(s.threads[q], k);
      assert q in s'.threads && Creates(s'.threads[q], k);
    }
  }

  lemma StepKeepsOwned(s: System, s': System)
    requires Owned(s) && Next(s, s')
    ensures Owned(s')
  {
    var a :| Enabled(s, a) && Targeted(s, a) && s' == Apply(s, a);
    match a
    case Run(p, c) => ThreadKeepsOwned(s, p, c);
    case HostRun(c) => HostKeepsOwned(s, c);
    case Begin(op) => BeginKeepsOwned(s, op);
    case Spawn(p) => SpawnKeepsOwned(s, p);
    case Configure(_) =>
  }

  /** Ownership holds in every state of every run. */
  lemma {:induction false} OwnedAlways(run: seq<System>, i: nat)
    requires IsRun(run) && i < |run|
    ensures Owned(run[i])
  {
    if i > 0 {
      OwnedAlways(run, i - 1);
      assert StepAt(run, i - 1);
      StepKeepsOwned(run[i - 1], run[i]);
    }
  }
}
