/** Every interleaving of lease Start and Stop calls on one registry, as a transition system over
    an unbounded set of leases and threads.

    A step is one critical section, or the part of one up to the next point where the thread may
    have to wait: a mutex, the factory, or the client's own shutdown. Start keeps the lease locked
    from its first step to its last; acquire keeps the registry locked while the factory runs. */
module ClientProtocol {
  import opened Wrappers
  import opened ClientConfig
  import opened ClientRegistry

  type LeaseId = nat
  type ThreadId = nat
  type RuntimeId = nat

  /** A release closure. origin records, for the proofs only, the runtime its acquire returned:
      no step reads it. */
  datatype Closure = Closure(identity: Identity, origin: RuntimeId)

  datatype LeaseState = LeaseState(identity: Identity, lock: Option<ThreadId>, release: Option<Closure>)

  /** What a thread inside Start or Stop does next. */
  datatype Pc =
    | StartLock(lease: LeaseId)
    | StartAcquire(lease: LeaseId)
    | StartFactory(lease: LeaseId)
    | StartStore(lease: LeaseId, closure: Closure)
    | StopLock(lease: LeaseId)
    | StopRelease(closure: Closure)
    | StopClient(runtime: RuntimeId)

  datatype RuntimeState = RuntimeState(identity: Identity, starts: nat, stops: nat)

  datatype State = State(
    leases: map<LeaseId, LeaseState>,
    threads: map<ThreadId, Pc>,
    entries: map<Identity, Entry<RuntimeId>>,
    registryLock: Option<ThreadId>,
    runtimes: map<RuntimeId, RuntimeState>)

  const INITIAL := State(map[], map[], map[], None, map[])

  /** made is what the factory returns if this step runs it: a fresh started runtime, or failure. */
  datatype Step =
    | NewLease(lease: LeaseId, identity: Identity)
    | CallStart(thread: ThreadId, lease: LeaseId)
    | CallStop(thread: ThreadId, lease: LeaseId)
    | Run(thread: ThreadId, made: Option<RuntimeId>)

  predicate Enabled(s: State, step: Step) {
    match step
    case NewLease(l, _) => l !in s.leases
    case CallStart(t, l) => t !in s.threads && l in s.leases
    case CallStop(t, l) => t !in s.threads && l in s.leases
    case Run(t, made) => t in s.threads && CanRun(s, s.threads[t], made)
  }

  predicate CanRun(s: State, pc: Pc, made: Option<RuntimeId>) {
    match pc
    case StartLock(l) => l in s.leases && s.leases[l].lock.None?
    case StartAcquire(l) => l in s.leases && s.registryLock.None?
    case StartFactory(l) => l in s.leases && (made.Some? ==> made.value !in s.runtimes)
    case StartStore(l, _) => l in s.leases
    case StopLock(l) => l in s.leases && s.leases[l].lock.None?
    case StopRelease(_) => s.registryLock.None?
    case StopClient(rt) => rt in s.runtimes
  }

  function Goto(s: State, t: ThreadId, pc: Pc): State {
    s.(threads := s.threads[t := pc])
  }

  function Return(s: State, t: ThreadId): State {
    s.(threads := s.threads - {t})
  }

  function SetLease(s: State, l: LeaseId, lock: Option<ThreadId>, release: Option<Closure>): State
    requires l in s.leases
  {
    s.(leases := s.leases[l := s.leases[l].(lock := lock, release := release)])
  }

  function Apply(s: State, step: Step): State
    requires Enabled(s, step)
  {
    match step
    case NewLease(l, id) => s.(leases := s.leases[l := LeaseState(id, None, None)])
    case CallStart(t, l) => Goto(s, t, StartLock(l))
    case CallStop(t, l) => Goto(s, t, StopLock(l))
    case Run(t, made) => Advance(s, t, made)
  }

  function Advance(s: State, t: ThreadId, made: Option<RuntimeId>): State
    requires t in s.threads && CanRun(s, s.threads[t], made)
  {
    match s.threads[t]
    case StartLock(l) =>
      if s.leases[l].release.Some? then Return(s, t)
      else Goto(SetLease(s, l, Some(t), None), t, StartAcquire(l))
    case StartAcquire(l) =>
      var id := s.leases[l].identity;
      if id in s.entries then
        Goto(s.(entries := Acquired(s.entries, id, None)), t, StartStore(l, Closure(id, s.entries[id].runtime)))
      else Goto(s.(registryLock := Some(t)), t, StartFactory(l))
    case StartFactory(l) =>
      var id := s.leases[l].identity;
      var unlocked := s.(registryLock := None, entries := Acquired(s.entries, id, made));
      (match made
       case None => Return(SetLease(unlocked, l, None, s.leases[l].release), t)
       case Some(rt) =>
         Goto(unlocked.(runtimes := s.runtimes[rt := RuntimeState(id, 1, 0)]), t, StartStore(l, Closure(id, rt))))
    case StartStore(l, closure) => Return(SetLease(s, l, None, Some(closure)), t)
    case StopLock(l) =>
      (match s.leases[l].release
       case None => Return(s, t)
       case Some(closure) => Goto(SetLease(s, l, None, None), t, StopRelease(closure)))
    case StopRelease(closure) =>
      var released := s.(entries := Released(s.entries, closure.identity));
      (match LastHolderStops(s.entries, closure.identity)
       case None => Return(released, t)
       case Some(rt) => Goto(released, t, StopClient(rt)))
    case StopClient(rt) =>
      Return(s.(runtimes := s.runtimes[rt := s.runtimes[rt].(stops := s.runtimes[rt].stops + 1)]), t)
  }

  // Who holds a release closure for an identity.

  function LeaseHolders(s: State, id: Identity): set<LeaseId> {
    set l | l in s.leases && s.leases[l].release.Some? && s.leases[l].release.value.identity == id
  }

  /** Starts that acquired but have not yet stored the closure in their lease. */
  function StartHolders(s: State, id: Identity): set<ThreadId> {
    set t | t in s.threads && s.threads[t].StartStore? && s.threads[t].closure.identity == id
  }

  /** Stops that took the closure and have not yet entered release. */
  function StopHolders(s: State, id: Identity): set<ThreadId> {
    set t | t in s.threads && s.threads[t].StopRelease? && s.threads[t].closure.identity == id
  }

  function Outstanding(s: State, id: Identity): nat {
    |LeaseHolders(s, id)| + |StartHolders(s, id)| + |StopHolders(s, id)|
  }

  function PcClosure(pc: Pc): Option<Closure> {
    if pc.StartStore? || pc.StopRelease? then Some(pc.closure) else None
  }

  function LeaseClosure(s: State, l: LeaseId): Option<Closure> {
    if l in s.leases then s.leases[l].release else None
  }

  function ThreadClosure(s: State, t: ThreadId): Option<Closure> {
    if t in s.threads then PcClosure(s.threads[t]) else None
  }

  function Holds(c: Option<Closure>, id: Identity): nat {
    if c.Some? && c.value.identity == id then 1 else 0
  }

  // The invariant.

  predicate HoldsLease(pc: Pc, l: LeaseId) {
    (pc.StartAcquire? || pc.StartFactory? || pc.StartStore?) && pc.lease == l
  }

  ghost predicate LeaseLocksOk(s: State) {
    forall l :: LeaseLockOk(s, l)
  }

  ghost predicate LeaseLockOk(s: State, l: LeaseId) {
    l in s.leases && s.leases[l].lock.Some? ==>
      var t := s.leases[l].lock.value; t in s.threads && HoldsLease(s.threads[t], l)
  }

  ghost predicate ThreadsOk(s: State) {
    forall t :: t in s.threads ==> ThreadOk(s, t, s.threads[t])
  }

  ghost predicate RegistryLockOk(s: State) {
    s.registryLock.Some? ==> var t := s.registryLock.value; t in s.threads && s.threads[t].StartFactory?
  }

  ghost predicate ThreadOk(s: State, t: ThreadId, pc: Pc) {
    match pc
    case StartLock(l) => l in s.leases
    case StartAcquire(l) => Locked(s, l, t)
    case StartFactory(l) => Locked(s, l, t) && s.registryLock == Some(t) && s.leases[l].identity !in s.entries
    case StartStore(l, closure) => Locked(s, l, t) && closure.identity == s.leases[l].identity
    case StopLock(l) => l in s.leases
    case StopRelease(_) => true
    case StopClient(rt) => true
  }

  ghost predicate Locked(s: State, l: LeaseId, t: ThreadId) {
    l in s.leases && s.leases[l].lock == Some(t) && s.leases[l].release == None
  }

  ghost predicate RefsOk(s: State) {
    forall id :: RefsOkFor(s, id)
  }

  ghost predicate RefsOkFor(s: State, id: Identity) {
    if id in s.entries then s.entries[id].refs == Outstanding(s, id) > 0 else Outstanding(s, id) == 0
  }

  /** The closure refers to the entry registered now under its identity. */
  ghost predicate Current(s: State, closure: Closure) {
    closure.identity in s.entries && s.entries[closure.identity].runtime == closure.origin
  }

  ghost predicate LeaseClosureOk(s: State, l: LeaseId) {
    LeaseClosure(s, l).Some? ==>
      LeaseClosure(s, l).value.identity == s.leases[l].identity && Current(s, LeaseClosure(s, l).value)
  }

  ghost predicate ThreadClosureOk(s: State, t: ThreadId) {
    ThreadClosure(s, t).Some? ==> Current(s, ThreadClosure(s, t).value)
  }

  ghost predicate ClosuresOk(s: State) {
    (forall l :: LeaseClosureOk(s, l)) && (forall t :: ThreadClosureOk(s, t))
  }

  predicate Registered(s: State, rt: RuntimeId) {
    rt in s.runtimes && s.runtimes[rt].identity in s.entries && s.entries[s.runtimes[rt].identity].runtime == rt
  }

  ghost predicate EntryRuntimeOk(s: State, id: Identity) {
    id in s.entries ==>
      var rt := s.entries[id].runtime; rt in s.runtimes && s.runtimes[rt] == RuntimeState(id, 1, 0)
  }

  predicate Stopping(s: State, t: ThreadId, rt: RuntimeId) {
    t in s.threads && s.threads[t] == StopClient(rt)
  }

  ghost predicate StopperOk(s: State, t: ThreadId) {
    t in s.threads && s.threads[t].StopClient? ==>
      var rt := s.threads[t].runtime; rt in s.runtimes && s.runtimes[rt].stops == 0 && !Registered(s, rt)
  }

  ghost predicate OneStopper(s: State, t: ThreadId, u: ThreadId) {
    t in s.threads && u in s.threads && s.threads[t].StopClient? && s.threads[t] == s.threads[u] ==> t == u
  }

  ghost predicate RuntimeOk(s: State, rt: RuntimeId) {
    rt in s.runtimes ==>
      && s.runtimes[rt].starts == 1 && s.runtimes[rt].stops <= 1
      && (s.runtimes[rt].stops == 0 ==> Registered(s, rt) || exists t :: Stopping(s, t, rt))
  }

  ghost predicate RuntimesOk(s: State) {
    && (forall id :: EntryRuntimeOk(s, id))
    && (forall t :: StopperOk(s, t))
    && (forall t, u :: OneStopper(s, t, u))
    && (forall rt :: RuntimeOk(s, rt))
  }

  ghost predicate Inv(s: State) {
    LeaseLocksOk(s) && ThreadsOk(s) && RegistryLockOk(s) && RefsOk(s) && ClosuresOk(s) && RuntimesOk(s)
  }
}
