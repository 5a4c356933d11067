// Any number of classifier threads interleaved with one host delete at a time.
module FlowSystem {
  import opened FlowMaps
  import opened PacketPath
  import opened HostOperation

  datatype System = System(capacity: nat, m: Maps, threads: map<nat, Pc>, host: Host)

  datatype Action =
    | Spawn(p: nat)
    | Run(p: nat, c: Choice)
    | Begin(op: DeleteOp)
    | HostRun(hc: HostChoice)
    | Configure(capacity: nat)

  predicate Init(s: System) {
    s.m == EmptyMaps && s.threads == map[] && s.host == Waiting
  }

  /** What the scheduler may pick; the host is serialised by its operation lock. */
  predicate Enabled(s: System, a: Action) {
    match a
    case Spawn(p) => p !in s.threads
    case Run(p, _) => p in s.threads
    case Begin(_) => s.host.Waiting?
    case HostRun(_) => s.host.Busy?
    case Configure(_) => true
  }

  function Apply(s: System, a: Action): System
    requires Enabled(s, a)
  {
    match a
    case Spawn(p) => s.(threads := s.threads[p := Idle])
    case Run(p, c) =>
      var (m', pc') := ThreadStep(s.capacity, s.m, s.threads[p], c);
      s.(m := m', threads := s.threads[p := pc'])
    case Begin(op) => s.(m := s.m.(settled := s.m.settled + {op.key}), host := Busy(op, ReadInitial))
    case HostRun(hc) =>
      var (m', h') := HostStep(s.m, s.host, hc);
      s.(m := m', host := h')
    case Configure(capacity) => s.(capacity := capacity)
  }

  predicate Creates(pc: Pc, k: FlowKey) {
    pc.Making? && pc.key == k
  }

  /** Generation k has been handed out and no thread is creating it: live, deleted, rolled back or never used. */
  predicate Targetable(s: System, k: FlowKey) {
    k.generation <= s.m.nextGeneration && forall p :: p in s.threads ==> !Creates(s.threads[p], k)
  }

  /** A delete names a generation that no creator holds or will hold. */
  predicate Targeted(s: System, a: Action) {
    a.Begin? ==> Targetable(s, a.op.key)
  }

  ghost predicate Next(s: System, s': System) {
    exists a :: Enabled(s, a) && Targeted(s, a) && s' == Apply(s, a)
  }

  ghost predicate StepAt(run: seq<System>, i: nat)
    requires i + 1 < |run|
  {
    Next(run[i], run[i + 1])
  }

  /** A run: consecutive states are one step apart. */
  ghost predicate IsRun(run: seq<System>) {
    && run != []
    && Init(run[0])
    && forall i {:trigger StepAt(run, i)} :: 0 <= i < |run| - 1 ==> StepAt(run, i)
  }
}
