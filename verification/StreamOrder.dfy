/** When observations are delivered in the order they were marked, and when they cannot be kept
    in it. */
module StreamOrder {
  import opened Bifrost
  import opened Sums
  import opened StreamLifecycle
  import opened StreamInterleaving

  predicate InOrder(s: State) {
    s.delivered <= s.marks
  }

  function Marked(observing: bool, r: Resolution, phase: Phase, call: Call): seq<Observation> {
    Mark(observing, r, phase, call).1
  }

  /** No call marks anything while an earlier mark waits for delivery. */
  predicate Safe(observing: bool, r: Resolution, s: State, step: Step) {
    step.LockAndMark? && Enabled(s, step) ==>
      Marked(observing, r, s.phase, s.callers[step.thread].call) == [] || |s.delivered| >= |s.marks|
  }

  /** The marks not delivered yet all wait with one caller. */
  ghost predicate Settled(s: State) {
    InOrder(s) && (s.delivered == s.marks || exists t :: RestAt(s, t) == s.marks[|s.delivered|..])
  }

  lemma RestAfter(observing: bool, r: Resolution, s: State, step: Step, t: ThreadId)
    requires Enabled(s, step)
    ensures RestAt(Apply(observing, r, s, step), t) ==
            if t != step.thread then RestAt(s, t)
            else if step.LockAndMark? then Stamps(|s.marks|, Marked(observing, r, s.phase, s.callers[t].call))
            else if step.Deliver? then RestAt(s, t)[1..]
            else []
  {
  }

  lemma WaitingIsPending(observing: bool, r: Resolution, s: State)
    requires Inv(observing, r, s) && InOrder(s)
    ensures Pending(s) == multiset(s.marks[|s.delivered|..])
  {
    var behind := s.marks[|s.delivered|..];
    assert s.marks == s.delivered + behind;
    forall o
      ensures Pending(s)[o] == multiset(behind)[o]
    {
      assert multiset(s.marks)[o] == multiset(s.delivered)[o] + multiset(behind)[o];
      assert multiset(s.marks)[o] == multiset(s.delivered)[o] + Pending(s)[o];
    }
  }

  lemma PendingCountsBoth(s: State, t: ThreadId, u: ThreadId)
    requires t != u && t in s.callers
    ensures |RestAt(s, t)| + |RestAt(s, u)| <= |Pending(s)|
  {
    PendingSplit(s, u);
    BagRemove(Rests(s) - {u}, t);
  }

  /** In a settled state only the caller with whom all the marks wait can deliver. */
  lemma OneDeliverer(observing: bool, r: Resolution, s: State, t: ThreadId)
    requires Inv(observing, r, s) && Settled(s) && RestAt(s, t) != []
    ensures RestAt(s, t) == s.marks[|s.delivered|..]
  {
    WaitingIsPending(observing, r, s);
    PendingSplit(s, t);
    assert |multiset(RestAt(s, t))| > 0;
    var u :| RestAt(s, u) == s.marks[|s.delivered|..];
    if u != t {
      PendingCountsBoth(s, t, u);
      assert false;
    }
  }

  lemma LockKeepsSettled(observing: bool, r: Resolution, s: State, step: Step)
    requires Settled(s) && step.LockAndMark? && Enabled(s, step) && Safe(observing, r, s, step)
    ensures Settled(Apply(observing, r, s, step))
  {
    var s', t := Apply(observing, r, s, step), step.thread;
    var m := Marked(observing, r, s.phase, s.callers[t].call);
    RestAfter(observing, r, s, step, t);
    if m == [] {
      OthersKeepSettled(observing, r, s, step);
    } else {
      assert RestAt(s', t) == s'.marks[|s.delivered|..];
    }
  }

  /** A step that neither marks nor delivers. */
  lemma OthersKeepSettled(observing: bool, r: Resolution, s: State, step: Step)
    requires Settled(s) && Enabled(s, step) && !step.Deliver?
    requires Apply(observing, r, s, step).marks == s.marks
    ensures Settled(Apply(observing, r, s, step))
  {
    var s', behind := Apply(observing, r, s, step), s.marks[|s.delivered|..];
    if s.delivered != s.marks {
      var u :| RestAt(s, u) == behind;
      RestAfter(observing, r, s, step, u);
      assert RestAt(s', u) == behind;
    }
  }

  lemma DeliverKeepsSettled(observing: bool, r: Resolution, s: State, t: ThreadId)
    requires Inv(observing, r, s) && Settled(s) && Enabled(s, Deliver(t))
    ensures Settled(Apply(observing, r, s, Deliver(t)))
  {
    var s' := Apply(observing, r, s, Deliver(t));
    OneDeliverer(observing, r, s, t);
    assert RestAt(s', t) == s'.marks[|s'.delivered|..];
  }

  lemma SafeKeepsSettled(observing: bool, r: Resolution, s: State, step: Step, s': State)
    requires Inv(observing, r, s) && Settled(s)
    requires IsStep(observing, r, s, step, s') && Safe(observing, r, s, step)
    ensures Inv(observing, r, s') && Settled(s')
  {
    StepPreservesInv(observing, r, s, step);
    match step
    case LockAndMark(_) => LockKeepsSettled(observing, r, s, step);
    case Deliver(t) => DeliverKeepsSettled(observing, r, s, t);
    case Invoke(_, _) => OthersKeepSettled(observing, r, s, step);
    case Leave(_) => OthersKeepSettled(observing, r, s, step);
  }

  /** A call that marks while an earlier mark waits can overtake it at once. */
  lemma UnsafeOvertakes(observing: bool, r: Resolution, s: State, step: Step)
    requires Inv(observing, r, s) && Enabled(s, step) && !Safe(observing, r, s, step)
    ensures var s' := Apply(observing, r, s, step);
            Enabled(s', Deliver(step.thread)) && !InOrder(Apply(observing, r, s', Deliver(step.thread)))
  {
    var s' := Apply(observing, r, s, step);
    var s'' := Apply(observing, r, s', Deliver(step.thread));
    assert s''.delivered[|s.delivered|].at == |s.marks| && s''.marks[|s.delivered|].at == |s.delivered|;
  }

  ghost predicate AllSafe(observing: bool, r: Resolution, run: seq<State>, steps: seq<Step>)
    requires |run| == |steps| + 1
  {
    forall i :: 0 <= i < |steps| ==> Safe(observing, r, run[i], steps[i])
  }

  /** Nothing that can be delivered anywhere along the run is out of order. */
  ghost predicate DeliversInOrder(observing: bool, r: Resolution, run: seq<State>) {
    forall i, t :: 0 <= i < |run| && Enabled(run[i], Deliver(t)) ==> InOrder(Apply(observing, r, run[i], Deliver(t)))
  }

  lemma {:induction false} SafeRunStaysSettled(observing: bool, r: Resolution, start: State, run: seq<State>,
                                               steps: seq<Step>, i: nat)
    requires RunsFrom(observing, r, start, run, steps) && AllSafe(observing, r, run, steps) && i < |run|
    requires Inv(observing, r, start) && Settled(start)
    ensures Inv(observing, r, run[i]) && Settled(run[i])
  {
    if i > 0 {
      SafeRunStaysSettled(observing, r, start, run, steps, i - 1);
      SafeKeepsSettled(observing, r, run[i - 1], steps[i - 1], run[i]);
    }
  }

  lemma InitialIsSettled(observing: bool, r: Resolution)
    ensures Inv(observing, r, INITIAL) && Settled(INITIAL)
  {
    assert Rests(INITIAL) == map[];
  }

  /** Delivery follows mark order throughout, whoever delivers next, exactly if no call marked
      anything while an earlier mark was waiting. */
  lemma OrderKeptIff(observing: bool, r: Resolution, run: seq<State>, steps: seq<Step>)
    requires IsRun(observing, r, run, steps)
    ensures AllSafe(observing, r, run, steps) <==> DeliversInOrder(observing, r, run)
    ensures AllSafe(observing, r, run, steps) ==> forall i :: 0 <= i < |run| ==> InOrder(run[i])
  {
    if AllSafe(observing, r, run, steps) {
      InitialIsSettled(observing, r);
      forall i | 0 <= i < |run|
        ensures InOrder(run[i])
        ensures forall t :: Enabled(run[i], Deliver(t)) ==> InOrder(Apply(observing, r, run[i], Deliver(t)))
      {
        SafeRunStaysSettled(observing, r, INITIAL, run, steps, i);
        forall t | Enabled(run[i], Deliver(t))
          ensures InOrder(Apply(observing, r, run[i], Deliver(t)))
        {
          DeliverKeepsSettled(observing, r, run[i], t);
        }
      }
    } else {
      var i :| 0 <= i < |steps| && !Safe(observing, r, run[i], steps[i]);
      InvAlways(observing, r, run, steps, i);
      assert IsStep(observing, r, run[i], steps[i], run[i + 1]);
      UnsafeOvertakes(observing, r, run[i], steps[i]);
    }
  }

  // One call at a time.

  ghost predicate OneAtATime(run: seq<State>, steps: seq<Step>)
    requires |run| == |steps| + 1
  {
    forall i :: 0 <= i < |steps| && steps[i].Invoke? ==> run[i].callers == map[]
  }

  ghost predicate Alone(s: State) {
    forall t, u :: t in s.callers && u in s.callers ==> t == u
  }

  lemma NothingPending(observing: bool, r: Resolution, s: State)
    requires Inv(observing, r, s) && Alone(s) && forall t :: RestAt(s, t) == []
    ensures |s.delivered| == |s.marks|
  {
    if t :| t in s.callers {
      PendingSplit(s, t);
      assert Rests(s) - {t} == map[];
      assert RestAt(s, t) == [];
    } else {
      assert Rests(s) == map[];
    }
    assert |multiset(s.marks)| == |multiset(s.delivered)|;
  }

  lemma {:induction false} AloneAlways(observing: bool, r: Resolution, run: seq<State>, steps: seq<Step>, i: nat)
    requires IsRun(observing, r, run, steps) && OneAtATime(run, steps) && i < |run|
    ensures Alone(run[i])
  {
    if i > 0 {
      AloneAlways(observing, r, run, steps, i - 1);
      assert IsStep(observing, r, run[i - 1], steps[i - 1], run[i]);
    }
  }

  lemma AloneIsSafe(observing: bool, r: Resolution, s: State, step: Step)
    requires Inv(observing, r, s) && Alone(s)
    ensures Safe(observing, r, s, step)
  {
    if step.LockAndMark? && Enabled(s, step) {
      assert forall t :: RestAt(s, t) == [];
      NothingPending(observing, r, s);
    }
  }

  /** Callers that start a call only when none is in flight see every mark in order, and all of
      them once the last call has returned. */
  lemma SerialCallsStayInOrder(observing: bool, r: Resolution, run: seq<State>, steps: seq<Step>, i: nat)
    requires IsRun(observing, r, run, steps) && OneAtATime(run, steps) && i < |run|
    ensures AllSafe(observing, r, run, steps)
    ensures InOrder(run[i])
    ensures run[i].callers == map[] ==> run[i].delivered == run[i].marks
  {
    forall k | 0 <= k < |steps|
      ensures Safe(observing, r, run[k], steps[k])
    {
      InvAlways(observing, r, run, steps, k);
      AloneAlways(observing, r, run, steps, k);
      AloneIsSafe(observing, r, run[k], steps[k]);
    }
    OrderKeptIff(observing, r, run, steps);
    InvAlways(observing, r, run, steps, i);
    if run[i].callers == map[] {
      NothingPending(observing, r, run[i]);
    }
  }

  // Two calls at a time.

  /** Taken in this order, both calls mark. */
  predicate Clash(observing: bool, r: Resolution, phase: Phase, first: Call, second: Call) {
    var (after, marked) := Mark(observing, r, phase, first);
    marked != [] && Marked(observing, r, after, second) != []
  }

  /** A run from s in which no further call is made. */
  ghost predicate Continues(observing: bool, r: Resolution, s: State, run: seq<State>, steps: seq<Step>) {
    RunsFrom(observing, r, s, run, steps) && forall i :: 0 <= i < |steps| ==> !steps[i].Invoke?
  }

  ghost predicate CanReorder(observing: bool, r: Resolution, s: State) {
    exists run, steps :: Continues(observing, r, s, run, steps) && !InOrder(run[|steps|])
  }

  ghost predicate BothWait(s: State, t1: ThreadId, c1: Call, t2: ThreadId, c2: Call) {
    t1 != t2 && s.callers == map[t1 := Waiting(c1), t2 := Waiting(c2)] && s.delivered == s.marks
  }

  lemma ClashReorders(observing: bool, r: Resolution, s: State, t1: ThreadId, c1: Call, t2: ThreadId, c2: Call)
    requires Inv(observing, r, s) && BothWait(s, t1, c1, t2, c2) && Clash(observing, r, s.phase, c1, c2)
    ensures CanReorder(observing, r, s)
  {
    var s1 := Apply(observing, r, s, LockAndMark(t1));
    var s2 := Apply(observing, r, s1, LockAndMark(t2));
    var s3 := Apply(observing, r, s2, Deliver(t2));
    var run, steps := [s, s1, s2, s3], [LockAndMark(t1), LockAndMark(t2), Deliver(t2)];
    assert Continues(observing, r, s, run, steps);
    assert s3.delivered[|s.marks|].at > |s.marks| && s3.marks[|s.marks|].at == |s.marks|;
  }

  predicate Waits(x: State, t: ThreadId) {
    t in x.callers && x.callers[t].Waiting?
  }

  /** Where a continuation of two waiting calls can be: neither, one or both have marked. */
  ghost predicate PairState(observing: bool, r: Resolution, s: State, t1: ThreadId, c1: Call, t2: ThreadId, c2: Call,
                            x: State)
  {
    && |s.marks| <= |x.delivered|
    && (forall t :: Waits(x, t) ==> t == t1 || t == t2)
    && (Waits(x, t1) ==> x.callers[t1].call == c1) && (Waits(x, t2) ==> x.callers[t2].call == c2)
    && (Waits(x, t1) && Waits(x, t2) ==> x.phase == s.phase && x.marks == s.marks)
    && (Waits(x, t1) && !Waits(x, t2) ==> Marked1(observing, r, s, c2, x))
    && (!Waits(x, t1) && Waits(x, t2) ==> Marked1(observing, r, s, c1, x))
  }

  predicate Marked1(observing: bool, r: Resolution, s: State, call: Call, x: State) {
    x.phase == Mark(observing, r, s.phase, call).0
      && x.marks == s.marks + Stamps(|s.marks|, Marked(observing, r, s.phase, call))
  }

  lemma PairStatePreserved(observing: bool, r: Resolution, s: State, t1: ThreadId, c1: Call, t2: ThreadId, c2: Call,
                           x: State, step: Step)
    requires t1 != t2 && PairState(observing, r, s, t1, c1, t2, c2, x)
    requires Enabled(x, step) && !step.Invoke?
    ensures PairState(observing, r, s, t1, c1, t2, c2, Apply(observing, r, x, step))
  {
    var x' := Apply(observing, r, x, step);
    assert step.LockAndMark? ==> Waits(x, step.thread);
    assert forall t :: t != step.thread ==> (Waits(x', t) <==> Waits(x, t));
    assert !Waits(x', step.thread);
  }

  /** After one of two calls that do not clash, the other is safe. */
  lemma NoClashIsSafe(observing: bool, r: Resolution, s: State, first: Call, x: State, t: ThreadId)
    requires |s.marks| <= |x.delivered| && Marked1(observing, r, s, first, x) && Waits(x, t)
    requires !Clash(observing, r, s.phase, first, x.callers[t].call)
    ensures Safe(observing, r, x, LockAndMark(t))
  {
  }

  lemma {:induction false} PairStates(observing: bool, r: Resolution, s: State,
                                      t1: ThreadId, c1: Call, t2: ThreadId, c2: Call,
                                      run: seq<State>, steps: seq<Step>, i: nat)
    requires BothWait(s, t1, c1, t2, c2) && Continues(observing, r, s, run, steps) && i < |run|
    ensures PairState(observing, r, s, t1, c1, t2, c2, run[i])
  {
    if i > 0 {
      PairStates(observing, r, s, t1, c1, t2, c2, run, steps, i - 1);
      assert IsStep(observing, r, run[i - 1], steps[i - 1], run[i]);
      PairStatePreserved(observing, r, s, t1, c1, t2, c2, run[i - 1], steps[i - 1]);
    }
  }

  lemma NoClashStaysSafe(observing: bool, r: Resolution, s: State, t1: ThreadId, c1: Call, t2: ThreadId, c2: Call,
                         run: seq<State>, steps: seq<Step>)
    requires BothWait(s, t1, c1, t2, c2) && Continues(observing, r, s, run, steps)
    requires !Clash(observing, r, s.phase, c1, c2) && !Clash(observing, r, s.phase, c2, c1)
    ensures AllSafe(observing, r, run, steps)
  {
    forall i | 0 <= i < |steps|
      ensures Safe(observing, r, run[i], steps[i])
    {
      PairStates(observing, r, s, t1, c1, t2, c2, run, steps, i);
      var x := run[i];
      if steps[i].LockAndMark? && Enabled(x, steps[i]) {
        var t := steps[i].thread;
        assert Waits(x, t);
        if t == t1 && !Waits(x, t2) {
          NoClashIsSafe(observing, r, s, c2, x, t1);
        } else if t == t2 && !Waits(x, t1) {
          NoClashIsSafe(observing, r, s, c1, x, t2);
        }
      }
    }
  }

  /** Two calls in flight together can be delivered out of order exactly when, taken in one order
      or the other, both mark. */
  lemma OverlapReordersIff(observing: bool, r: Resolution, run: seq<State>, steps: seq<Step>,
                           t1: ThreadId, c1: Call, t2: ThreadId, c2: Call)
    requires IsRun(observing, r, run, steps) && BothWait(run[|steps|], t1, c1, t2, c2)
    ensures var s := run[|steps|];
            CanReorder(observing, r, s) <==>
              Clash(observing, r, s.phase, c1, c2) || Clash(observing, r, s.phase, c2, c1)
  {
    var s := run[|steps|];
    InvAlways(observing, r, run, steps, |steps|);
    if Clash(observing, r, s.phase, c1, c2) {
      ClashReorders(observing, r, s, t1, c1, t2, c2);
    } else if Clash(observing, r, s.phase, c2, c1) {
      assert BothWait(s, t2, c2, t1, c1);
      ClashReorders(observing, r, s, t2, c2, t1, c1);
    } else {
      forall more, moreSteps | Continues(observing, r, s, more, moreSteps)
        ensures InOrder(more[|moreSteps|])
      {
        NoClashStaysSafe(observing, r, s, t1, c1, t2, c2, more, moreSteps);
        SafeRunStaysSettled(observing, r, s, more, moreSteps, |moreSteps|);
      }
    }
  }

  lemma ExtendRun(observing: bool, r: Resolution, run: seq<State>, steps: seq<Step>, step: Step)
    returns (run': seq<State>, steps': seq<Step>)
    requires IsRun(observing, r, run, steps) && Enabled(run[|steps|], step)
    ensures IsRun(observing, r, run', steps') && run'[|steps'|] == Apply(observing, r, run[|steps|], step)
  {
    run', steps' := run + [Apply(observing, r, run[|steps|], step)], steps + [step];
  }

  /** From any reachable state in which every mark has been delivered and nobody is in flight, two
      calls made together can be delivered out of order exactly when they clash. */
  lemma QuietPairReordersIff(observing: bool, r: Resolution, run: seq<State>, steps: seq<Step>,
                             t1: ThreadId, c1: Call, t2: ThreadId, c2: Call)
    requires IsRun(observing, r, run, steps) && t1 != t2
    requires run[|steps|].callers == map[] && run[|steps|].delivered == run[|steps|].marks
    ensures var s := run[|steps|];
            var both := Apply(observing, r, Apply(observing, r, s, Invoke(t1, c1)), Invoke(t2, c2));
            CanReorder(observing, r, both) <==>
              Clash(observing, r, s.phase, c1, c2) || Clash(observing, r, s.phase, c2, c1)
  {
    var run1, steps1 := ExtendRun(observing, r, run, steps, Invoke(t1, c1));
    var run2, steps2 := ExtendRun(observing, r, run1, steps1, Invoke(t2, c2));
    OverlapReordersIff(observing, r, run2, steps2, t1, c1, t2, c2);
  }

  /** So any two reports on an open stream, even of the same direction and amount, can reach the
      observer in the wrong order when they are made together. */
  lemma ReportsCanReorder(r: Resolution, run: seq<State>, steps: seq<Step>, t1: ThreadId, c1: Call, t2: ThreadId,
                          c2: Call)
    requires IsRun(true, r, run, steps) && t1 != t2 && CountsBytes(c1) && CountsBytes(c2)
    requires run[|steps|].callers == map[] && run[|steps|].delivered == run[|steps|].marks
    requires !run[|steps|].phase.ended
    ensures CanReorder(true, r, Apply(true, r, Apply(true, r, run[|steps|], Invoke(t1, c1)), Invoke(t2, c2)))
  {
    QuietPairReordersIff(true, r, run, steps, t1, c1, t2, c2);
  }

  /** One direction reports a byte while the stream ends: the end reaches the observer first, and
      only then the start and the delta that were marked before it. */
  lemma DeliveryCanReorder(r: Resolution) returns (run: seq<State>, steps: seq<Step>)
    ensures IsRun(true, r, run, steps)
    ensures var s := run[|steps|];
            var start := Event(r, StreamStarted, ResultStarted, REASON_NONE);
            var delta := Event(r, StreamUsageDelta, NoResult, REASON_NONE).(bytesIngressToEndpoint := 1);
            var end := Event(r, StreamEnded, ResultEnded, REASON_NONE);
            && s.marks == [Stamped(0, start), Stamped(1, delta), Stamped(2, end)]
            && s.delivered == [Stamped(2, end), Stamped(0, start), Stamped(1, delta)]
  {
    run, steps := [INITIAL], [];
    run, steps := ExtendRun(true, r, run, steps, Invoke(0, AddBytesCall(IngressToEndpoint, 1)));
    run, steps := ExtendRun(true, r, run, steps, Invoke(1, EndCall));
    run, steps := ExtendRun(true, r, run, steps, LockAndMark(0));
    run, steps := ExtendRun(true, r, run, steps, LockAndMark(1));
    run, steps := ExtendRun(true, r, run, steps, Deliver(1));
    run, steps := ExtendRun(true, r, run, steps, Deliver(0));
    run, steps := ExtendRun(true, r, run, steps, Deliver(0));
  }
}
