/** What holds over every run of lease Starts and Stops. */
module ClientProtocolTheorems {
  import opened Wrappers
  import opened Sums
  import opened ClientConfig
  import opened ClientRegistry
  import opened ClientProtocol
  import opened ClientProtocolInvariant

  /** In every reachable state an entry's count is the number of release closures outstanding for
      its identity: those stored in leases, those a Start is about to store and those a Stop has
      taken but not yet run. The entry exists exactly when there is one. */
  lemma RefsCountClosures(run: seq<State>, steps: seq<Step>, i: nat, id: Identity)
    requires IsRun(run, steps) && i < |run|
    ensures var s := run[i];
            var closures := |LeaseHolders(s, id)| + |StartHolders(s, id)| + |StopHolders(s, id)|;
            && (id in s.entries <==> closures > 0)
            && (id in s.entries ==> s.entries[id].refs == closures)
  {
    InvAlways(run, steps, i);
    assert RefsOkFor(run[i], id);
  }

  /** A closure is keyed by identity alone, yet it always releases the entry its acquire obtained:
      the entry is still there and still has the same runtime. The missing-entry branch of release
      is unreachable. */
  lemma ReleaseFindsItsOwnEntry(run: seq<State>, steps: seq<Step>, i: nat, t: ThreadId)
    requires IsRun(run, steps) && i < |run|
    requires t in run[i].threads && run[i].threads[t].StopRelease?
    ensures var closure := run[i].threads[t].closure;
            && closure.identity in run[i].entries
            && run[i].entries[closure.identity].runtime == closure.origin
            && run[i].entries[closure.identity].refs >= 1
  {
    InvAlways(run, steps, i);
    assert ThreadClosureOk(run[i], t);
    assert RefsOkFor(run[i], run[i].threads[t].closure.identity);
  }

  ghost predicate Refers(s: State, rt: RuntimeId) {
    || (exists l :: LeaseClosure(s, l).Some? && LeaseClosure(s, l).value.origin == rt)
    || (exists t :: ThreadClosure(s, t).Some? && ThreadClosure(s, t).value.origin == rt)
  }

  ghost predicate HasStopper(s: State, rt: RuntimeId) {
    exists t :: Stopping(s, t, rt)
  }

  /** Every runtime the factory built was started once and is in exactly one of three places:
      registered, in the hands of one stopper, or stopped once. It is registered, so neither
      stopped nor being stopped, as long as any closure refers to it. */
  lemma RuntimeLifecycle(run: seq<State>, steps: seq<Step>, i: nat, rt: RuntimeId)
    requires IsRun(run, steps) && i < |run| && rt in run[i].runtimes
    ensures var s := run[i];
            && s.runtimes[rt].starts == 1
            && (|| (s.runtimes[rt].stops == 0 && Registered(s, rt) && !HasStopper(s, rt))
                || (s.runtimes[rt].stops == 0 && !Registered(s, rt) && HasStopper(s, rt))
                || (s.runtimes[rt].stops == 1 && !Registered(s, rt) && !HasStopper(s, rt)))
            && (forall t, u :: Stopping(s, t, rt) && Stopping(s, u, rt) ==> t == u)
            && (Refers(s, rt) ==> Registered(s, rt))
  {
    var s := run[i];
    InvAlways(run, steps, i);
    assert RuntimeOk(s, rt);
    assert Registered(s, rt) ==> EntryRuntimeOk(s, s.runtimes[rt].identity);
    assert forall t :: Stopping(s, t, rt) ==> StopperOk(s, t);
    assert forall t, u :: Stopping(s, t, rt) && Stopping(s, u, rt) ==> OneStopper(s, t, u);
    if Refers(s, rt) {
      ReferredIsRegistered(s, rt);
    }
  }

  lemma ReferredIsRegistered(s: State, rt: RuntimeId)
    requires ClosuresOk(s) && RuntimesOk(s) && Refers(s, rt)
    ensures Registered(s, rt)
  {
    var id;
    if l :| LeaseClosure(s, l).Some? && LeaseClosure(s, l).value.origin == rt {
      assert LeaseClosureOk(s, l);
      id := LeaseClosure(s, l).value.identity;
    } else {
      var t :| ThreadClosure(s, t).Some? && ThreadClosure(s, t).value.origin == rt;
      assert ThreadClosureOk(s, t);
      id := ThreadClosure(s, t).value.identity;
    }
    assert EntryRuntimeOk(s, id);
  }

  /** The runtimes of an identity that were started and not stopped. */
  function Alive(s: State, id: Identity): set<RuntimeId> {
    set rt | rt in s.runtimes && s.runtimes[rt].identity == id && s.runtimes[rt].stops == 0
  }

  function RegisteredFor(s: State, id: Identity): set<RuntimeId> {
    if id in s.entries then {s.entries[id].runtime} else {}
  }

  /** The runtimes of an identity that some thread is about to stop. */
  function BeingStopped(s: State, id: Identity): set<RuntimeId> {
    set t | t in s.threads && s.threads[t].StopClient?
            && s.threads[t].runtime in s.runtimes && s.runtimes[s.threads[t].runtime].identity == id
      :: s.threads[t].runtime
  }

  /** For each identity the runtimes still alive are the registered one, at most one, and those in
      the hands of a stopper; no runtime is both. */
  lemma AliveRuntimes(run: seq<State>, steps: seq<Step>, i: nat, id: Identity)
    requires IsRun(run, steps) && i < |run|
    ensures Alive(run[i], id) == RegisteredFor(run[i], id) + BeingStopped(run[i], id)
    ensures RegisteredFor(run[i], id) !! BeingStopped(run[i], id)
  {
    var s := run[i];
    InvAlways(run, steps, i);
    assert EntryRuntimeOk(s, id);
    forall rt | rt in Alive(s, id)
      ensures rt in RegisteredFor(s, id) + BeingStopped(s, id)
    {
      assert RuntimeOk(s, rt);
      if !Registered(s, rt) {
        var t :| Stopping(s, t, rt);
        assert t in s.threads && s.threads[t].StopClient? && s.threads[t].runtime == rt;
      }
    }
    forall rt | rt in BeingStopped(s, id)
      ensures rt in Alive(s, id) && rt !in RegisteredFor(s, id)
    {
      var t :| t in s.threads && s.threads[t].StopClient? && s.threads[t].runtime == rt;
      assert StopperOk(s, t);
    }
  }

  lemma ExtendRun(run: seq<State>, steps: seq<Step>, step: Step) returns (run': seq<State>, steps': seq<Step>)
    requires IsRun(run, steps) && Enabled(run[|steps|], step)
    ensures IsRun(run', steps') && run'[|steps'|] == Apply(run[|steps|], step)
  {
    run', steps' := run + [Apply(run[|steps|], step)], steps + [step];
  }

  /** Two can be alive together: a Start finds the entry gone and builds a second runtime before the
      last holder of the first has stopped it. */
  lemma TwoCanBeAlive(id: Identity) returns (run: seq<State>, steps: seq<Step>)
    ensures IsRun(run, steps)
    ensures RegisteredFor(run[|steps|], id) == {1} && BeingStopped(run[|steps|], id) == {0}
    ensures Alive(run[|steps|], id) == {0, 1}
  {
    run, steps := StoppedButAlive(id);
    run, steps := ExtendRun(run, steps, CallStart(1, 0));
    run, steps := ExtendRun(run, steps, Run(1, None));
    run, steps := ExtendRun(run, steps, Run(1, None));
    run, steps := ExtendRun(run, steps, Run(1, Some(1)));
    AliveRuntimes(run, steps, |steps|, id);
  }

  /** Lease 0 has started and stopped; thread 0 has yet to stop its runtime. */
  lemma StoppedButAlive(id: Identity) returns (run: seq<State>, steps: seq<Step>)
    ensures IsRun(run, steps)
    ensures run[|steps|] == State(map[0 := LeaseState(id, None, None)], map[0 := StopClient(0)], map[], None,
                                  map[0 := RuntimeState(id, 1, 0)])
  {
    run, steps := OneLeaseHeld(id);
    run, steps := ExtendRun(run, steps, CallStop(0, 0));
    run, steps := ExtendRun(run, steps, Run(0, None));
    run, steps := ExtendRun(run, steps, Run(0, None));
  }

  lemma OneLeaseHeld(id: Identity) returns (run: seq<State>, steps: seq<Step>)
    ensures IsRun(run, steps)
    ensures run[|steps|] == State(map[0 := LeaseState(id, None, Some(Closure(id, 0)))], map[],
                                  map[id := Entry(0, 1)], None, map[0 := RuntimeState(id, 1, 0)])
  {
    run, steps := [INITIAL], [];
    run, steps := ExtendRun(run, steps, NewLease(0, id));
    run, steps := ExtendRun(run, steps, CallStart(0, 0));
    run, steps := ExtendRun(run, steps, Run(0, None));
    run, steps := ExtendRun(run, steps, Run(0, None));
    run, steps := ExtendRun(run, steps, Run(0, Some(0)));
    run, steps := ExtendRun(run, steps, Run(0, None));
  }

  /** With no call in flight and no lease holding a closure, nothing is registered and every
      runtime that was started has been stopped. */
  lemma QuiescentMeansStopped(run: seq<State>, steps: seq<Step>, i: nat)
    requires IsRun(run, steps) && i < |run|
    requires run[i].threads == map[]
    requires forall l :: l in run[i].leases ==> run[i].leases[l].release == None
    ensures run[i].entries == map[]
    ensures forall rt :: rt in run[i].runtimes ==> run[i].runtimes[rt].starts == run[i].runtimes[rt].stops == 1
  {
    var s := run[i];
    InvAlways(run, steps, i);
    forall id
      ensures id !in s.entries
    {
      assert RefsOkFor(s, id);
      assert LeaseHolders(s, id) == {} && StartHolders(s, id) == {} && StopHolders(s, id) == {};
    }
    forall rt | rt in s.runtimes
      ensures s.runtimes[rt].starts == s.runtimes[rt].stops == 1
    {
      assert RuntimeOk(s, rt);
    }
  }

  /** While somebody holds a closure for an identity its runtime is neither replaced nor stopped,
      and the factory does not run for it: a reload that starts the new lease before stopping the
      old one keeps the tunnel, whatever other threads do. */
  lemma KeptWhileHeld(run: seq<State>, steps: seq<Step>, i: nat, j: nat, id: Identity)
    requires IsRun(run, steps) && i <= j < |run|
    requires forall k :: i <= k <= j ==> Outstanding(run[k], id) > 0
    ensures id in run[i].entries && id in run[j].entries
    ensures run[j].entries[id].runtime == run[i].entries[id].runtime
    ensures var rt := run[i].entries[id].runtime; rt in run[j].runtimes && run[j].runtimes[rt] == RuntimeState(id, 1, 0)
    ensures forall k :: i <= k < j ==> !RunsFactoryFor(run[k], steps[k], id)
  {
    forall k | i <= k <= j
      ensures id in run[k].entries
    {
      HeldIsRegistered(run, steps, k, id);
    }
    SameRuntime(run, steps, i, j, id);
    HeldIsRegistered(run, steps, j, id);
    forall k | i <= k < j
      ensures !RunsFactoryFor(run[k], steps[k], id)
    {
      KeptByStep(run, steps, k, id);
    }
  }

  /** An entry that is never removed keeps its runtime. */
  lemma {:induction false} SameRuntime(run: seq<State>, steps: seq<Step>, i: nat, j: nat, id: Identity)
    requires IsRun(run, steps) && i <= j < |run|
    requires forall k :: i <= k <= j ==> id in run[k].entries
    ensures run[j].entries[id].runtime == run[i].entries[id].runtime
    decreases j
  {
    if i < j {
      SameRuntime(run, steps, i, j - 1, id);
      KeptByStep(run, steps, j - 1, id);
    }
  }

  lemma HeldIsRegistered(run: seq<State>, steps: seq<Step>, i: nat, id: Identity)
    requires IsRun(run, steps) && i < |run| && Outstanding(run[i], id) > 0
    ensures id in run[i].entries
    ensures var rt := run[i].entries[id].runtime; rt in run[i].runtimes && run[i].runtimes[rt] == RuntimeState(id, 1, 0)
  {
    InvAlways(run, steps, i);
    assert RefsOkFor(run[i], id) && EntryRuntimeOk(run[i], id);
  }

  ghost predicate RunsFactoryFor(s: State, step: Step, id: Identity) {
    && step.Run? && step.thread in s.threads && s.threads[step.thread].StartFactory?
    && s.threads[step.thread].lease in s.leases && s.leases[s.threads[step.thread].lease].identity == id
  }

  lemma KeptByStep(run: seq<State>, steps: seq<Step>, i: nat, id: Identity)
    requires IsRun(run, steps) && i < |steps| && id in run[i].entries && id in run[i + 1].entries
    ensures run[i + 1].entries[id].runtime == run[i].entries[id].runtime
    ensures !RunsFactoryFor(run[i], steps[i], id)
  {
    InvAlways(run, steps, i);
    if steps[i].Run? {
      assert ThreadOk(run[i], steps[i].thread, run[i].threads[steps[i].thread]);
    }
  }

  /** While one thread runs the factory no other thread changes an entry, so a failed start finds
      and leaves every entry and count as they were. */
  lemma EntriesFrozenDuringFactory(run: seq<State>, steps: seq<Step>, i: nat, t: ThreadId)
    requires IsRun(run, steps) && i < |steps| && run[i].registryLock == Some(t)
    requires steps[i].Run? ==> steps[i].thread != t || steps[i].made.None?
    ensures run[i + 1].entries == run[i].entries
    ensures forall l :: LeaseClosure(run[i + 1], l) != LeaseClosure(run[i], l) ==>
              steps[i].Run? && steps[i].thread != t
  {
    InvAlways(run, steps, i);
    if steps[i].Run? {
      assert ThreadOk(run[i], steps[i].thread, run[i].threads[steps[i].thread]);
    }
  }

  // Deadlock freedom and termination.

  ghost predicate CanStep(s: State, t: ThreadId) {
    Enabled(s, Run(t, None))
  }

  /** No deadlock: the lease lock is always taken before the registry lock, so whenever a call is
      in flight some thread can take a step. */
  lemma SomeThreadCanStep(run: seq<State>, steps: seq<Step>, i: nat)
    requires IsRun(run, steps) && i < |run| && run[i].threads != map[]
    ensures exists t :: CanStep(run[i], t)
  {
    var s := run[i];
    InvAlways(run, steps, i);
    var t :| t in s.threads;
    assert ThreadOk(s, t, s.threads[t]) && StopperOk(s, t);
    if s.registryLock.Some? {
      var u := s.registryLock.value;
      assert ThreadOk(s, u, s.threads[u]);
      assert CanStep(s, u);
    } else if (s.threads[t].StartLock? || s.threads[t].StopLock?) && s.leases[s.threads[t].lease].lock.Some? {
      var l := s.threads[t].lease;
      assert LeaseLockOk(s, l);
      var u := s.leases[l].lock.value;
      assert ThreadOk(s, u, s.threads[u]);
      assert CanStep(s, u);
    } else {
      assert CanStep(s, t);
    }
  }

  function Rank(pc: Pc): nat {
    match pc
    case StartLock(_) => 4
    case StartAcquire(_) => 3
    case StartFactory(_) => 2
    case StartStore(_, _) => 1
    case StopLock(_) => 3
    case StopRelease(_) => 2
    case StopClient(_) => 1
  }

  function Ranks(s: State): map<ThreadId, nat> {
    map t | t in s.threads :: Rank(s.threads[t])
  }

  /** How many steps the calls in flight can still take. */
  ghost function Measure(s: State): nat {
    SumOf(Ranks(s))
  }

  lemma RankDecreases(s: State, t: ThreadId, made: Option<RuntimeId>)
    requires Enabled(s, Run(t, made)) && t in Advance(s, t, made).threads
    ensures Rank(Advance(s, t, made).threads[t]) < Rank(s.threads[t])
  {
  }

  lemma StepDecreasesMeasure(s: State, t: ThreadId, made: Option<RuntimeId>)
    requires Enabled(s, Run(t, made))
    ensures Measure(Advance(s, t, made)) < Measure(s)
  {
    var s' := Advance(s, t, made);
    var m, m' := Ranks(s), Ranks(s');
    StepIsLocal(s, t, made);
    if t in s'.threads {
      RankDecreases(s, t, made);
    }
    assert m' - {t} == m - {t};
    SumDecreases(m, m', t);
  }

  /** When no new call is made, the calls in flight take at most Measure steps; and once no step is
      possible every one of them has returned. */
  lemma {:induction false} CallsFinish(run: seq<State>, steps: seq<Step>, i: nat)
    requires IsRun(run, steps) && i < |run|
    requires forall k :: i <= k < |steps| ==> steps[k].Run?
    ensures |steps| - i <= Measure(run[i])
    ensures (forall t :: !CanStep(run[|steps|], t)) ==> run[|steps|].threads == map[]
    decreases |steps| - i
  {
    if i < |steps| {
      CallsFinish(run, steps, i + 1);
      StepDecreasesMeasure(run[i], steps[i].thread, steps[i].made);
    } else if run[i].threads != map[] {
      SomeThreadCanStep(run, steps, i);
    }
  }
}
