/** Every step keeps the invariant that ties reference counts, closures, locks and runtimes. */
module ClientProtocolInvariant {
  import opened Wrappers
  import opened Sums
  import opened ClientConfig
  import opened ClientRegistry
  import opened ClientProtocol

  // One step changes one thread and at most one lease.

  function LeaseOf(pc: Pc): LeaseId {
    if pc.StopRelease? || pc.StopClient? then 0 else pc.lease
  }

  ghost predicate SameThreads(s: State, s': State, t: ThreadId) {
    forall u :: u != t ==> (u in s.threads <==> u in s'.threads) && (u in s.threads ==> s'.threads[u] == s.threads[u])
  }

  ghost predicate SameLeases(s: State, s': State, l: LeaseId) {
    forall k :: k != l ==> (k in s.leases <==> k in s'.leases) && (k in s.leases ==> s'.leases[k] == s.leases[k])
  }

  lemma StepIsLocal(s: State, t: ThreadId, made: Option<RuntimeId>)
    requires Enabled(s, Run(t, made))
    ensures SameThreads(s, Advance(s, t, made), t)
    ensures SameLeases(s, Advance(s, t, made), LeaseOf(s.threads[t]))
  {
    StepChangesOneLease(s, t, made);
  }

  lemma StepChangesOneLease(s: State, t: ThreadId, made: Option<RuntimeId>)
    requires Enabled(s, Run(t, made))
    ensures SameLeases(s, Advance(s, t, made), LeaseOf(s.threads[t]))
  {
  }

  /** How a change of one thread and one lease moves the number of outstanding closures. */
  lemma OutstandingUpdate(s: State, s': State, t: ThreadId, l: LeaseId, id: Identity)
    requires SameThreads(s, s', t) && SameLeases(s, s', l)
    ensures Outstanding(s', id) + Holds(LeaseClosure(s, l), id) + Holds(ThreadClosure(s, t), id)
         == Outstanding(s, id) + Holds(LeaseClosure(s', l), id) + Holds(ThreadClosure(s', t), id)
  {
    CardUpdate(LeaseHolders(s, id), LeaseHolders(s', id), l);
    CardUpdate(StartHolders(s, id), StartHolders(s', id), t);
    CardUpdate(StopHolders(s, id), StopHolders(s', id), t);
  }

  lemma StartRefsPreserved(s: State, t: ThreadId, made: Option<RuntimeId>, id: Identity)
    requires Enabled(s, Run(t, made)) && ThreadOk(s, t, s.threads[t]) && RefsOkFor(s, id)
    requires !s.threads[t].StopLock? && !s.threads[t].StopRelease? && !s.threads[t].StopClient?
    ensures RefsOkFor(Advance(s, t, made), id)
  {
    StepIsLocal(s, t, made);
    OutstandingUpdate(s, Advance(s, t, made), t, s.threads[t].lease, id);
  }

  lemma StopLockRefsPreserved(s: State, t: ThreadId, made: Option<RuntimeId>, id: Identity)
    requires Enabled(s, Run(t, made)) && RefsOkFor(s, id) && s.threads[t].StopLock?
    ensures RefsOkFor(Advance(s, t, made), id)
  {
    StepIsLocal(s, t, made);
    OutstandingUpdate(s, Advance(s, t, made), t, s.threads[t].lease, id);
  }

  lemma StopReleaseRefsPreserved(s: State, t: ThreadId, made: Option<RuntimeId>, id: Identity)
    requires Enabled(s, Run(t, made)) && RefsOkFor(s, id) && ThreadClosureOk(s, t)
    requires s.threads[t].StopRelease? || s.threads[t].StopClient?
    ensures RefsOkFor(Advance(s, t, made), id)
  {
    StepIsLocal(s, t, made);
    OutstandingUpdate(s, Advance(s, t, made), t, 0, id);
  }

  lemma OtherThreadPreserved(s: State, t: ThreadId, made: Option<RuntimeId>, u: ThreadId)
    requires Enabled(s, Run(t, made)) && u != t && u in s.threads
    requires ThreadOk(s, u, s.threads[u]) && ThreadOk(s, t, s.threads[t])
    ensures ThreadOk(Advance(s, t, made), u, s.threads[u])
  {
    StepIsLocal(s, t, made);
  }

  lemma OwnThreadPreserved(s: State, t: ThreadId, made: Option<RuntimeId>)
    requires Enabled(s, Run(t, made)) && ThreadOk(s, t, s.threads[t])
    ensures var s' := Advance(s, t, made); t in s'.threads ==> ThreadOk(s', t, s'.threads[t])
  {
  }

  lemma LeaseLockPreserved(s: State, t: ThreadId, made: Option<RuntimeId>, l: LeaseId)
    requires Enabled(s, Run(t, made)) && LeaseLocksOk(s) && ThreadOk(s, t, s.threads[t])
    ensures LeaseLockOk(Advance(s, t, made), l)
  {
    StepIsLocal(s, t, made);
    assert LeaseLockOk(s, l);
  }

  lemma RegistryLockPreserved(s: State, t: ThreadId, made: Option<RuntimeId>)
    requires Enabled(s, Run(t, made)) && ThreadOk(s, t, s.threads[t]) && RegistryLockOk(s)
    ensures RegistryLockOk(Advance(s, t, made))
  {
    StepIsLocal(s, t, made);
  }

  /** A closure stays current until it is released: nobody else can delete or replace its entry. */
  lemma CurrentPreserved(s: State, t: ThreadId, made: Option<RuntimeId>, closure: Closure)
    requires Enabled(s, Run(t, made)) && ThreadOk(s, t, s.threads[t]) && Current(s, closure)
    requires RefsOkFor(Advance(s, t, made), closure.identity) && Outstanding(Advance(s, t, made), closure.identity) > 0
    ensures Current(Advance(s, t, made), closure)
  {
  }

  lemma HolderCounts(s: State, l: LeaseId, t: ThreadId, id: Identity)
    ensures Holds(LeaseClosure(s, l), id) + Holds(ThreadClosure(s, t), id) > 0 ==> Outstanding(s, id) > 0
  {
    if Holds(LeaseClosure(s, l), id) > 0 {
      assert l in LeaseHolders(s, id);
    }
    if Holds(ThreadClosure(s, t), id) > 0 {
      assert t in StartHolders(s, id) + StopHolders(s, id);
    }
  }

  lemma LeaseClosurePreserved(s: State, t: ThreadId, made: Option<RuntimeId>, l: LeaseId)
    requires Enabled(s, Run(t, made)) && ThreadsOk(s) && ClosuresOk(s) && RefsOk(Advance(s, t, made))
    ensures LeaseClosureOk(Advance(s, t, made), l)
  {
    var s' := Advance(s, t, made);
    StepIsLocal(s, t, made);
    assert ThreadOk(s, t, s.threads[t]);
    if LeaseClosure(s', l).Some? {
      var closure := LeaseClosure(s', l).value;
      assert LeaseClosureOk(s, l) && ThreadClosureOk(s, t);
      HolderCounts(s', l, t, closure.identity);
      CurrentPreserved(s, t, made, closure);
    }
  }

  lemma ThreadClosurePreserved(s: State, t: ThreadId, made: Option<RuntimeId>, u: ThreadId)
    requires Enabled(s, Run(t, made)) && ThreadsOk(s) && ClosuresOk(s) && RefsOk(Advance(s, t, made))
    ensures ThreadClosureOk(Advance(s, t, made), u)
  {
    var s' := Advance(s, t, made);
    StepIsLocal(s, t, made);
    assert ThreadOk(s, t, s.threads[t]);
    if u != t && ThreadClosure(s', u).Some? {
      assert ThreadClosureOk(s, u);
      HolderCounts(s', 0, u, ThreadClosure(s', u).value.identity);
      CurrentPreserved(s, t, made, ThreadClosure(s', u).value);
    }
    assert s.threads[t].StopLock? ==> LeaseClosureOk(s, s.threads[t].lease);
  }

  lemma EntryRuntimePreserved(s: State, t: ThreadId, made: Option<RuntimeId>, id: Identity)
    requires Enabled(s, Run(t, made)) && EntryRuntimeOk(s, id) && StopperOk(s, t)
    ensures EntryRuntimeOk(Advance(s, t, made), id)
  {
  }

  lemma StopperPreserved(s: State, t: ThreadId, made: Option<RuntimeId>, u: ThreadId)
    requires Enabled(s, Run(t, made)) && StopperOk(s, u) && OneStopper(s, t, u)
    requires forall id :: EntryRuntimeOk(s, id)
    ensures StopperOk(Advance(s, t, made), u)
  {
    StepIsLocal(s, t, made);
    assert s.threads[t].StopRelease? ==> EntryRuntimeOk(s, s.threads[t].closure.identity);
  }

  lemma OneStopperPreserved(s: State, t: ThreadId, made: Option<RuntimeId>, u: ThreadId, v: ThreadId)
    requires Enabled(s, Run(t, made)) && StopperOk(s, u) && StopperOk(s, v) && OneStopper(s, u, v)
    requires forall id :: EntryRuntimeOk(s, id)
    ensures OneStopper(Advance(s, t, made), u, v)
  {
    StepIsLocal(s, t, made);
    assert s.threads[t].StopRelease? ==> EntryRuntimeOk(s, s.threads[t].closure.identity);
  }

  lemma RuntimePreserved(s: State, t: ThreadId, made: Option<RuntimeId>, rt: RuntimeId)
    requires Enabled(s, Run(t, made)) && ThreadOk(s, t, s.threads[t]) && RuntimeOk(s, rt) && StopperOk(s, t)
    ensures RuntimeOk(Advance(s, t, made), rt)
  {
    var s' := Advance(s, t, made);
    StepIsLocal(s, t, made);
    if rt in s.runtimes && s.runtimes[rt].stops == 0 {
      if Registered(s, rt) {
        assert Registered(s', rt) || Stopping(s', t, rt);
      } else {
        var u :| Stopping(s, u, rt);
        assert u != t ==> Stopping(s', u, rt);
      }
    }
  }

  lemma RunPreservesInv(s: State, t: ThreadId, made: Option<RuntimeId>)
    requires Inv(s) && Enabled(s, Run(t, made))
    ensures Inv(Advance(s, t, made))
  {
    var s' := Advance(s, t, made);
    RunPreservesLocks(s, t, made);
    RunPreservesRefs(s, t, made);
    RunPreservesRuntimes(s, t, made);
  }

  lemma RunPreservesLocks(s: State, t: ThreadId, made: Option<RuntimeId>)
    requires LeaseLocksOk(s) && ThreadsOk(s) && RegistryLockOk(s) && Enabled(s, Run(t, made))
    ensures var s' := Advance(s, t, made); LeaseLocksOk(s') && ThreadsOk(s') && RegistryLockOk(s')
  {
    var s' := Advance(s, t, made);
    assert ThreadOk(s, t, s.threads[t]);
    RegistryLockPreserved(s, t, made);
    forall l ensures LeaseLockOk(s', l) { LeaseLockPreserved(s, t, made, l); }
    StepIsLocal(s, t, made);
    OwnThreadPreserved(s, t, made);
    forall u | u in s'.threads ensures ThreadOk(s', u, s'.threads[u]) {
      if u != t {
        OtherThreadPreserved(s, t, made, u);
      }
    }
  }

  lemma RunPreservesRefs(s: State, t: ThreadId, made: Option<RuntimeId>)
    requires ThreadsOk(s) && RefsOk(s) && ClosuresOk(s) && Enabled(s, Run(t, made))
    ensures var s' := Advance(s, t, made); RefsOk(s') && ClosuresOk(s')
  {
    var s' := Advance(s, t, made);
    var pc := s.threads[t];
    assert ThreadOk(s, t, pc) && LeaseClosureOk(s, LeaseOf(pc)) && ThreadClosureOk(s, t);
    forall id ensures RefsOkFor(s', id) {
      assert RefsOkFor(s, id);
      if pc.StopLock? {
        StopLockRefsPreserved(s, t, made, id);
      } else if pc.StopRelease? || pc.StopClient? {
        StopReleaseRefsPreserved(s, t, made, id);
      } else {
        StartRefsPreserved(s, t, made, id);
      }
    }
    forall l ensures LeaseClosureOk(s', l) { LeaseClosurePreserved(s, t, made, l); }
    forall u ensures ThreadClosureOk(s', u) { ThreadClosurePreserved(s, t, made, u); }
  }

  lemma RunPreservesRuntimes(s: State, t: ThreadId, made: Option<RuntimeId>)
    requires ThreadsOk(s) && RuntimesOk(s) && Enabled(s, Run(t, made))
    ensures RuntimesOk(Advance(s, t, made))
  {
    var s' := Advance(s, t, made);
    assert ThreadOk(s, t, s.threads[t]) && StopperOk(s, t);
    forall id ensures EntryRuntimeOk(s', id) { EntryRuntimePreserved(s, t, made, id); }
    forall u ensures StopperOk(s', u) { assert OneStopper(s, t, u); StopperPreserved(s, t, made, u); }
    forall u, v ensures OneStopper(s', u, v) { OneStopperPreserved(s, t, made, u, v); }
    forall rt ensures RuntimeOk(s', rt) { RuntimePreserved(s, t, made, rt); }
  }

  lemma CallPreservesInv(s: State, step: Step)
    requires Inv(s) && Enabled(s, step) && !step.Run?
    ensures Inv(Apply(s, step))
  {
    var s' := Apply(s, step);
    CallPreservesRefs(s, step);
    CallPreservesRuntimes(s, step);
    assert forall l :: LeaseLockOk(s, l) ==> LeaseLockOk(s', l);
    assert forall t :: t in s'.threads ==>
      (t in s.threads ==> ThreadOk(s, t, s.threads[t])) && ThreadOk(s', t, s'.threads[t]);
  }

  lemma CallPreservesRefs(s: State, step: Step)
    requires RefsOk(s) && ClosuresOk(s) && Enabled(s, step) && !step.Run?
    ensures RefsOk(Apply(s, step)) && ClosuresOk(Apply(s, step))
  {
    var s' := Apply(s, step);
    forall id
      ensures RefsOkFor(s', id)
    {
      assert RefsOkFor(s, id);
      OutstandingUpdate(s, s', if step.NewLease? then 0 else step.thread, step.lease, id);
    }
    forall l ensures LeaseClosureOk(s', l) { assert LeaseClosureOk(s, l); }
    forall t ensures ThreadClosureOk(s', t) { assert ThreadClosureOk(s, t); }
  }

  lemma CallPreservesRuntimes(s: State, step: Step)
    requires RuntimesOk(s) && Enabled(s, step) && !step.Run?
    ensures RuntimesOk(Apply(s, step))
  {
    var s' := Apply(s, step);
    forall id ensures EntryRuntimeOk(s', id) { assert EntryRuntimeOk(s, id); }
    forall t ensures StopperOk(s', t) { assert StopperOk(s, t); }
    forall t, u ensures OneStopper(s', t, u) { assert OneStopper(s, t, u); }
    forall rt ensures RuntimeOk(s', rt) {
      assert RuntimeOk(s, rt);
      assert forall t :: Stopping(s, t, rt) ==> Stopping(s', t, rt);
    }
  }

  lemma StepPreservesInv(s: State, step: Step)
    requires Inv(s) && Enabled(s, step)
    ensures Inv(Apply(s, step))
  {
    if step.Run? {
      RunPreservesInv(s, step.thread, step.made);
    } else {
      CallPreservesInv(s, step);
    }
  }

  /** run is a sequence of states from the initial one, steps the labels between them. */
  ghost predicate IsRun(run: seq<State>, steps: seq<Step>) {
    && |run| == |steps| + 1 && run[0] == INITIAL
    && forall i :: 0 <= i < |steps| ==> Enabled(run[i], steps[i]) && run[i + 1] == Apply(run[i], steps[i])
  }

  lemma {:induction false} InvAlways(run: seq<State>, steps: seq<Step>, i: nat)
    requires IsRun(run, steps) && i < |run|
    ensures Inv(run[i])
  {
    if i > 0 {
      InvAlways(run, steps, i - 1);
      StepPreservesInv(run[i - 1], steps[i - 1]);
    }
  }
}
