/** A call that nobody interrupts: running its steps one after another does to the state what the
    methods of Lease and Registry promise. */
module ClientProtocolAlone {
  import opened Wrappers
  import opened ClientConfig
  import opened ClientRegistry
  import opened ClientProtocol
  import opened ClientProtocolInvariant
  import opened ClientProtocolTheorems

  /** The state once thread t has taken its steps and nobody else any; made is what the factory
      returns if it is run. */
  function RunAlone(s: State, t: ThreadId, made: Option<RuntimeId>): State
    decreases if t in s.threads then Rank(s.threads[t]) else 0
  {
    if t !in s.threads || !CanRun(s, s.threads[t], made) then s
    else
      var next := Advance(s, t, made);
      if t !in next.threads then next
      else
        RankDecreases(s, t, made);
        RunAlone(next, t, made)
  }

  /** These steps are a run. */
  lemma {:induction false} AloneIsRun(run: seq<State>, steps: seq<Step>, t: ThreadId, made: Option<RuntimeId>)
    returns (run': seq<State>, steps': seq<Step>)
    requires IsRun(run, steps)
    ensures IsRun(run', steps') && run <= run' && run'[|steps'|] == RunAlone(run[|steps|], t, made)
    ensures steps <= steps' && forall i :: |steps| <= i < |steps'| ==> steps'[i] == Run(t, made)
    decreases if t in run[|steps|].threads then Rank(run[|steps|].threads[t]) else 0
  {
    run', steps' := run, steps;
    var s := run[|steps|];
    if t in s.threads && CanRun(s, s.threads[t], made) {
      var next := Advance(s, t, made);
      assert next == Apply(s, Run(t, made));
      var longer, more := run + [next], steps + [Run(t, made)];
      if t in next.threads {
        RankDecreases(s, t, made);
        run', steps' := AloneIsRun(longer, more, t, made);
      } else {
        run', steps' := longer, more;
      }
    }
  }

  /** Nobody else holds what the call of t on lease l has to lock. */
  ghost predicate Uncontended(s: State, t: ThreadId, l: LeaseId) {
    t in s.threads && l in s.leases && s.leases[l].lock == None && s.registryLock == None
  }

  function StartedLease(id: Identity, rt: RuntimeId): LeaseState {
    LeaseState(id, None, Some(Closure(id, rt)))
  }

  function WithRuntime(s: State, id: Identity, made: Option<RuntimeId>): map<RuntimeId, RuntimeState> {
    if id in s.entries || made == None then s.runtimes else s.runtimes[made.value := RuntimeState(id, 1, 0)]
  }

  /** An uninterrupted Start is Lease.Start: nothing if the lease holds a closure already;
      otherwise one acquire and its closure stored, or no change when the factory fails. */
  lemma StartAloneIsLeaseStart(s: State, t: ThreadId, l: LeaseId, made: Option<RuntimeId>)
    requires Uncontended(s, t, l) && s.threads[t] == StartLock(l) && (made.Some? ==> made.value !in s.runtimes)
    ensures var s', id := RunAlone(s, t, made), s.leases[l].identity;
            && s'.threads == s.threads - {t} && s'.registryLock == None
            && (s.leases[l].release.Some? || (id !in s.entries && made.None?) ==>
                  s'.leases == s.leases && s'.entries == s.entries && s'.runtimes == s.runtimes)
            && (s.leases[l].release.None? && (id in s.entries || made.Some?) ==>
                  && id in s'.entries
                  && s'.entries == Acquired(s.entries, id, Some(s'.entries[id].runtime))
                  && s'.leases == s.leases[l := StartedLease(id, s'.entries[id].runtime)]
                  && s'.runtimes == WithRuntime(s, id, made))
  {
    var s1 := Advance(s, t, made);
    if t in s1.threads {
      AcquireAlone(s1, t, l, made);
      assert s1.leases == s.leases[l := s.leases[l].(lock := Some(t))];
      assert s1.threads - {t} == s.threads - {t};
      assert RunAlone(s, t, made) == RunAlone(s1, t, made);
    }
  }

  lemma AcquireAlone(s: State, t: ThreadId, l: LeaseId, made: Option<RuntimeId>)
    requires t in s.threads && s.threads[t] == StartAcquire(l) && l in s.leases && s.registryLock == None
    requires s.leases[l].release == None && (made.Some? ==> made.value !in s.runtimes)
    ensures var s', id := RunAlone(s, t, made), s.leases[l].identity;
            && s'.threads == s.threads - {t} && s'.registryLock == None
            && (id !in s.entries && made.None? ==>
                  && s'.leases == s.leases[l := s.leases[l].(lock := None)]
                  && s'.entries == s.entries && s'.runtimes == s.runtimes)
            && (id in s.entries || made.Some? ==>
                  && id in s'.entries
                  && s'.entries == Acquired(s.entries, id, Some(s'.entries[id].runtime))
                  && s'.leases == s.leases[l := StartedLease(id, s'.entries[id].runtime)]
                  && s'.runtimes == WithRuntime(s, id, made))
  {
    var id := s.leases[l].identity;
    var s1 := Advance(s, t, made);
    if id in s.entries {
      StoreAlone(s1, t, l, Closure(id, s.entries[id].runtime), made);
    } else {
      var s2 := Advance(s1, t, made);
      if made.Some? {
        StoreAlone(s2, t, l, Closure(id, made.value), made);
        assert RunAlone(s1, t, made) == RunAlone(s2, t, made);
      }
    }
    assert RunAlone(s, t, made) == RunAlone(s1, t, made);
  }

  lemma StoreAlone(s: State, t: ThreadId, l: LeaseId, closure: Closure, made: Option<RuntimeId>)
    requires t in s.threads && s.threads[t] == StartStore(l, closure) && l in s.leases
    ensures RunAlone(s, t, made) == Return(SetLease(s, l, None, Some(closure)), t)
  {
  }

  /** In a reachable state an uninterrupted Stop is Lease.Stop: nothing if the lease holds no
      closure; otherwise one release, after which the last holder has stopped the runtime once. */
  lemma StopAloneIsLeaseStop(run: seq<State>, steps: seq<Step>, t: ThreadId, l: LeaseId)
    requires IsRun(run, steps) && Uncontended(run[|steps|], t, l) && run[|steps|].threads[t] == StopLock(l)
    ensures var s := run[|steps|];
            var s', id := RunAlone(s, t, None), s.leases[l].identity;
            && s'.threads == s.threads - {t} && s'.registryLock == None
            && (s.leases[l].release.None? ==>
                  s'.leases == s.leases && s'.entries == s.entries && s'.runtimes == s.runtimes)
            && (s.leases[l].release.Some? ==>
                  && s'.leases == s.leases[l := LeaseState(id, None, None)]
                  && s'.entries == Released(s.entries, id)
                  && s'.runtimes == match LastHolderStops(s.entries, id)
                                    case None => s.runtimes
                                    case Some(rt) => s.runtimes[rt := RuntimeState(id, 1, 1)])
  {
    var s := run[|steps|];
    var id := s.leases[l].identity;
    InvAlways(run, steps, |steps|);
    assert LeaseClosureOk(s, l) && EntryRuntimeOk(s, id);
    var s1 := Advance(s, t, None);
    if s.leases[l].release.Some? {
      ReleaseAlone(s1, t, s.leases[l].release.value);
      assert s1.threads - {t} == s.threads - {t};
      assert RunAlone(s, t, None) == RunAlone(s1, t, None);
    }
  }

  lemma ReleaseAlone(s: State, t: ThreadId, closure: Closure)
    requires t in s.threads && s.threads[t] == StopRelease(closure) && s.registryLock == None
    requires EntryRuntimeOk(s, closure.identity)
    ensures var s', id := RunAlone(s, t, None), closure.identity;
            && s'.threads == s.threads - {t} && s'.registryLock == None && s'.leases == s.leases
            && s'.entries == Released(s.entries, id)
            && s'.runtimes == match LastHolderStops(s.entries, id)
                              case None => s.runtimes
                              case Some(rt) => s.runtimes[rt := RuntimeState(id, 1, 1)]
  {
    var s1 := Advance(s, t, None);
    if t in s1.threads {
      var rt := s1.threads[t].runtime;
      assert RunAlone(s1, t, None) == Advance(s1, t, None);
      assert RunAlone(s, t, None) == RunAlone(s1, t, None);
    }
  }
}
