/** Concurrent callers of one lifecycle: each call marks in one step under the mutex and delivers
    its observations afterwards, one at a time and outside the mutex. */
module StreamInterleaving {
  import opened Bifrost
  import opened Sums
  import opened StreamLifecycle
  import opened StreamHistory

  type ThreadId = nat

  /** An observation and its place among the marks. The clock is read under the mutex, so this is the
      order of the ObservedAt times, and two observations that are otherwise alike differ in it. */
  datatype Stamped = Stamped(at: nat, observation: Observation)

  function Stamps(from: nat, marked: seq<Observation>): seq<Stamped> {
    seq(|marked|, i requires 0 <= i < |marked| => Stamped(from + i, marked[i]))
  }

  function Observations(q: seq<Stamped>): seq<Observation> {
    seq(|q|, i requires 0 <= i < |q| => q[i].observation)
  }

  datatype Caller = Waiting(call: Call) | Delivering(rest: seq<Stamped>)

  /** calls lists the calls in the order they took the mutex, marks what they marked, delivered
      what reached the observer, in the order it arrived there. */
  datatype State = State(
    phase: Phase, callers: map<ThreadId, Caller>,
    calls: seq<Call>, marks: seq<Stamped>, delivered: seq<Stamped>)

  const INITIAL := State(Phase(false, false), map[], [], [], [])

  datatype Step =
    | Invoke(thread: ThreadId, call: Call)
    | LockAndMark(thread: ThreadId)
    | Deliver(thread: ThreadId)
    | Leave(thread: ThreadId)

  predicate Enabled(s: State, step: Step) {
    match step
    case Invoke(t, _) => t !in s.callers
    case LockAndMark(t) => t in s.callers && s.callers[t].Waiting?
    case Deliver(t) => t in s.callers && s.callers[t].Delivering? && s.callers[t].rest != []
    case Leave(t) => t in s.callers && s.callers[t].Delivering? && s.callers[t].rest == []
  }

  function Apply(observing: bool, r: Resolution, s: State, step: Step): State
    requires Enabled(s, step)
  {
    match step
    case Invoke(t, call) => s.(callers := s.callers[t := Waiting(call)])
    case LockAndMark(t) =>
      var call := s.callers[t].call;
      var (phase, marked) := Mark(observing, r, s.phase, call);
      var stamped := Stamps(|s.marks|, marked);
      s.(phase := phase, callers := s.callers[t := Delivering(stamped)],
         calls := s.calls + [call], marks := s.marks + stamped)
    case Deliver(t) =>
      var rest := s.callers[t].rest;
      s.(callers := s.callers[t := Delivering(rest[1..])], delivered := s.delivered + [rest[0]])
    case Leave(t) => s.(callers := s.callers - {t})
  }

  ghost predicate IsRun(observing: bool, r: Resolution, run: seq<State>, steps: seq<Step>) {
    RunsFrom(observing, r, INITIAL, run, steps)
  }

  ghost predicate RunsFrom(observing: bool, r: Resolution, start: State, run: seq<State>, steps: seq<Step>) {
    && |run| == |steps| + 1 && run[0] == start
    && forall i :: 0 <= i < |steps| ==> IsStep(observing, r, run[i], steps[i], run[i + 1])
  }

  ghost predicate IsStep(observing: bool, r: Resolution, s: State, step: Step, s': State) {
    Enabled(s, step) && s' == Apply(observing, r, s, step)
  }

  function RestOf(c: Caller): seq<Stamped> {
    if c.Delivering? then c.rest else []
  }

  function Rests(s: State): map<ThreadId, seq<Stamped>> {
    map t | t in s.callers :: RestOf(s.callers[t])
  }

  /** What has been marked and not delivered yet. */
  ghost function Pending(s: State): multiset<Stamped> {
    BagOf(Rests(s))
  }

  ghost predicate Inv(observing: bool, r: Resolution, s: State) {
    && s.phase == PhaseAfter(observing, r, s.calls)
    && s.marks == Stamps(0, Marks(observing, r, s.calls))
    && multiset(s.marks) == multiset(s.delivered) + Pending(s)
  }

  function RestAt(s: State, t: ThreadId): seq<Stamped> {
    if t in s.callers then RestOf(s.callers[t]) else []
  }

  lemma PendingSplit(s: State, t: ThreadId)
    ensures Pending(s) == multiset(RestAt(s, t)) + BagOf(Rests(s) - {t})
  {
    if t in s.callers {
      BagRemove(Rests(s), t);
    } else {
      assert Rests(s) - {t} == Rests(s);
    }
  }

  lemma OthersKeepRests(observing: bool, r: Resolution, s: State, step: Step)
    requires Enabled(s, step)
    ensures Rests(Apply(observing, r, s, step)) - {step.thread} == Rests(s) - {step.thread}
  {
  }

  lemma StepPreservesInv(observing: bool, r: Resolution, s: State, step: Step)
    requires Inv(observing, r, s) && Enabled(s, step)
    ensures Inv(observing, r, Apply(observing, r, s, step))
  {
    var s' := Apply(observing, r, s, step);
    var t := step.thread;
    var others := BagOf(Rests(s) - {t});
    PendingSplit(s, t);
    PendingSplit(s', t);
    OthersKeepRests(observing, r, s, step);
    if step.LockAndMark? {
      MarkedArePending(observing, r, s, t, others);
    } else if step.Deliver? {
      var rest := s.callers[t].rest;
      assert rest == [rest[0]] + rest[1..];
      assert multiset(s'.delivered) == multiset(s.delivered) + multiset{rest[0]};
    }
  }

  lemma MarkedArePending(observing: bool, r: Resolution, s: State, t: ThreadId, others: multiset<Stamped>)
    requires Inv(observing, r, s) && Enabled(s, LockAndMark(t)) && Pending(s) == others
    ensures var s' := Apply(observing, r, s, LockAndMark(t));
            && s'.phase == PhaseAfter(observing, r, s'.calls)
            && s'.marks == Stamps(0, Marks(observing, r, s'.calls))
            && multiset(s'.marks) == multiset(s'.delivered) + (multiset(RestAt(s', t)) + others)
  {
    var s' := Apply(observing, r, s, LockAndMark(t));
    assert s'.calls[..|s'.calls| - 1] == s.calls;
    StampsConcat(Marks(observing, r, s.calls), Mark(observing, r, s.phase, s.callers[t].call).1);
  }

  lemma StampsConcat(a: seq<Observation>, b: seq<Observation>)
    ensures Stamps(0, a + b) == Stamps(0, a) + Stamps(|a|, b)
  {
  }

  lemma {:induction false} InvAlways(observing: bool, r: Resolution, run: seq<State>, steps: seq<Step>, i: nat)
    requires IsRun(observing, r, run, steps) && i < |run|
    ensures Inv(observing, r, run[i])
  {
    if i > 0 {
      InvAlways(observing, r, run, steps, i - 1);
      assert IsStep(observing, r, run[i - 1], steps[i - 1], run[i]);
      StepPreservesInv(observing, r, run[i - 1], steps[i - 1]);
    }
  }

  /** Under any interleaving the marks form a legal history whose bytes are exactly those counted
      before the terminal mark. */
  lemma ConcurrentMarksAreLegal(observing: bool, r: Resolution, run: seq<State>, steps: seq<Step>, i: nat)
    requires IsRun(observing, r, run, steps) && i < |run|
    ensures var h := Observations(run[i].marks);
            && (StreamPrefix(h) || SingleReject(h))
            && (forall o :: o in h ==> WellFormed(r, o))
            && (observing ==> forall d :: d != OtherDirection ==> MarkedBytes(h, d) == CountedBytes(run[i].calls, d))
  {
    InvAlways(observing, r, run, steps, i);
    var h := Marks(observing, r, run[i].calls);
    assert Observations(run[i].marks) == h;
    MarkHistoryIsLegal(observing, r, run[i].calls);
    if observing {
      forall d | d != OtherDirection
        ensures MarkedBytes(h, d) == CountedBytes(run[i].calls, d)
      {
        BytesAreConserved(r, run[i].calls, d);
      }
    }
  }

  /** Every mark carries its own place, none is delivered twice, and once no call is in flight all of
      them have been delivered. */
  lemma DeliveredEqualsMarked(observing: bool, r: Resolution, run: seq<State>, steps: seq<Step>, i: nat)
    requires IsRun(observing, r, run, steps) && i < |run|
    ensures forall k :: 0 <= k < |run[i].marks| ==> run[i].marks[k].at == k
    ensures multiset(run[i].delivered) <= multiset(run[i].marks)
    ensures run[i].callers == map[] ==> multiset(run[i].delivered) == multiset(run[i].marks)
  {
    InvAlways(observing, r, run, steps, i);
    assert run[i].callers == map[] ==> Rests(run[i]) == map[];
  }
}
