/** What a lifecycle's mark history looks like for any calls in any lock order. */
module StreamHistory {
  import opened Bifrost
  import opened Wrappers
  import opened StreamLifecycle

  predicate Terminal(o: Observation) {
    o.eventType == StreamEnded || o.eventType == StreamRejected
  }

  /** A prefix of: Started, any number of usage deltas, Ended. */
  predicate StreamPrefix(h: seq<Observation>) {
    && (h != [] ==> h[0].eventType == StreamStarted)
    && (forall i :: 1 <= i < |h| ==>
          h[i].eventType == StreamUsageDelta || (h[i].eventType == StreamEnded && i == |h| - 1))
  }

  predicate SingleReject(h: seq<Observation>) {
    |h| == 1 && h[0].eventType == StreamRejected
  }

  /** Keys are those of the resolution; a usage delta is positive in exactly one direction and the
      other events carry no bytes; a rejection always has a reason. */
  predicate WellFormed(r: Resolution, o: Observation) {
    && o.endpointKey == r.endpointKey && o.observationKey == r.observationKey
    && (if o.eventType == StreamUsageDelta
        then (o.bytesIngressToEndpoint > 0 && o.bytesEndpointToIngress == 0)
             || (o.bytesIngressToEndpoint == 0 && o.bytesEndpointToIngress > 0)
        else o.bytesIngressToEndpoint == 0 && o.bytesEndpointToIngress == 0)
    && match o.eventType
       case StreamStarted => o.result == ResultStarted && o.reason == "none"
       case StreamUsageDelta => o.result == NoResult && o.reason == "none"
       case StreamEnded => o.result == ResultEnded && o.reason == "none"
       case StreamRejected => o.result == ResultRejected && o.reason != ""
  }

  predicate HistoryOf(phase: Phase, h: seq<Observation>) {
    match phase
    case Phase(false, false) => h == []
    case Phase(true, false) => h != [] && StreamPrefix(h) && h[|h| - 1].eventType != StreamEnded
    case Phase(true, true) => |h| >= 2 && StreamPrefix(h) && h[|h| - 1].eventType == StreamEnded
    case Phase(false, true) => SingleReject(h)
  }

  lemma {:induction false} HistoryMatchesPhase(observing: bool, r: Resolution, calls: seq<Call>)
    ensures HistoryOf(PhaseAfter(observing, r, calls), Marks(observing, r, calls))
    ensures forall o :: o in Marks(observing, r, calls) ==> WellFormed(r, o)
  {
    if calls != [] {
      var before := calls[..|calls| - 1];
      HistoryMatchesPhase(observing, r, before);
    }
  }

  /** In any lock order the mark history is a prefix of a stream, or one rejection, and every event
      in it is well formed. */
  lemma MarkHistoryIsLegal(observing: bool, r: Resolution, calls: seq<Call>)
    ensures var h := Marks(observing, r, calls);
            && (StreamPrefix(h) || SingleReject(h))
            && (forall o :: o in h ==> WellFormed(r, o))
            && (!observing ==> h == [])
  {
    HistoryMatchesPhase(observing, r, calls);
    if !observing {
      UnobservedMarksNothing(r, calls);
    }
  }

  lemma {:induction false} UnobservedMarksNothing(r: Resolution, calls: seq<Call>)
    ensures Marks(false, r, calls) == [] && PhaseAfter(false, r, calls) == Phase(false, false)
  {
    if calls != [] {
      UnobservedMarksNothing(r, calls[..|calls| - 1]);
    }
  }

  /** Nothing is marked after a terminal event, whatever is called. */
  lemma {:induction false} NothingAfterTerminal(observing: bool, r: Resolution, calls: seq<Call>, later: seq<Call>)
    requires exists o :: o in Marks(observing, r, calls) && Terminal(o)
    ensures Marks(observing, r, calls + later) == Marks(observing, r, calls)
    ensures PhaseAfter(observing, r, calls + later) == PhaseAfter(observing, r, calls)
  {
    if later == [] {
      assert calls + later == calls;
    } else {
      var all := calls + later;
      assert all[..|all| - 1] == calls + later[..|later| - 1];
      NothingAfterTerminal(observing, r, calls, later[..|later| - 1]);
      HistoryMatchesPhase(observing, r, calls);
    }
  }

  // When a stream opens and closes, told from the calls alone.

  predicate NoReject(calls: seq<Call>) {
    forall i :: 0 <= i < |calls| ==> !calls[i].RejectCall?
  }

  /** Some call opens the stream and no rejection came before it. */
  ghost predicate Opened(calls: seq<Call>) {
    exists i :: 0 <= i < |calls| && Opens(calls[i]) && NoReject(calls[..i])
  }

  ghost predicate ClosesAt(calls: seq<Call>, i: nat)
    requires i < |calls|
  {
    || (calls[i].EndCall? && Opened(calls[..i]))
    || (calls[i].RejectCall? && !Opened(calls[..i]))
  }

  ghost predicate Closed(calls: seq<Call>) {
    exists i :: 0 <= i < |calls| && ClosesAt(calls, i)
  }

  lemma OpenedStep(calls: seq<Call>)
    requires calls != []
    ensures var b := calls[..|calls| - 1];
            Opened(calls) <==> Opened(b) || (Opens(calls[|calls| - 1]) && NoReject(b))
  {
    var n := |calls| - 1;
    var b := calls[..n];
    assert forall i :: 0 <= i <= n ==> calls[..i] == b[..i];
    if Opened(b) {
      var i :| 0 <= i < |b| && Opens(b[i]) && NoReject(b[..i]);
      assert Opens(calls[i]) && NoReject(calls[..i]);
    }
  }

  lemma ClosedStep(calls: seq<Call>)
    requires calls != []
    ensures var b := calls[..|calls| - 1]; Closed(calls) <==> Closed(b) || ClosesAt(calls, |calls| - 1)
  {
    var n := |calls| - 1;
    var b := calls[..n];
    assert forall i :: 0 <= i <= n ==> calls[..i] == b[..i];
    assert forall i :: 0 <= i < n ==> (ClosesAt(calls, i) <==> ClosesAt(b, i));
  }

  /** The fields of an observed lifecycle say exactly whether its calls opened and closed it. */
  lemma {:induction false} PhaseTellsOpenedAndClosed(r: Resolution, calls: seq<Call>)
    ensures PhaseAfter(true, r, calls).started <==> Opened(calls)
    ensures PhaseAfter(true, r, calls).ended <==> Closed(calls)
    ensures !NoReject(calls) && !Opened(calls) ==> Closed(calls)
  {
    if calls != [] {
      var b := calls[..|calls| - 1];
      PhaseTellsOpenedAndClosed(r, b);
      HistoryMatchesPhase(true, r, b);
      OpenedStep(calls);
      ClosedStep(calls);
      if !NoReject(calls) && NoReject(b) {
        assert calls[|calls| - 1].RejectCall?;
      }
      if Closed(b) && !Opened(b) {
        ClosedUnopenedHasReject(b);
      }
    }
  }

  lemma ClosedUnopenedHasReject(calls: seq<Call>)
    requires Closed(calls) && !Opened(calls)
    ensures !NoReject(calls)
  {
    var i :| 0 <= i < |calls| && ClosesAt(calls, i);
    PrefixOpens(calls, i);
  }

  lemma PrefixOpens(calls: seq<Call>, i: nat)
    requires i <= |calls|
    ensures Opened(calls[..i]) ==> Opened(calls)
  {
    if Opened(calls[..i]) {
      var j :| 0 <= j < i && Opens(calls[..i][j]) && NoReject(calls[..i][..j]);
      assert Opens(calls[j]) && calls[..i][..j] == calls[..j];
    }
  }

  // Bytes.

  function MarkedBytes(h: seq<Observation>, d: Direction): int {
    if h == [] then 0
    else
      MarkedBytes(h[..|h| - 1], d) + ObservedBytes(h[|h| - 1], d)
  }

  function ObservedBytes(o: Observation, d: Direction): int {
    match d
    case IngressToEndpoint => o.bytesIngressToEndpoint
    case EndpointToIngress => o.bytesEndpointToIngress
    case OtherDirection => 0
  }

  /** The amount a call reports in this direction. */
  function ReportedBytes(call: Call, d: Direction): int {
    if call.AddBytesCall? && call.direction == d && call.n > 0 then call.n else 0
  }

  /** The positive amounts whose call took the mutex before the stream closed. */
  ghost function CountedBytes(calls: seq<Call>, d: Direction): int {
    if calls == [] then 0
    else
      var b := calls[..|calls| - 1];
      CountedBytes(b, d) + (if Closed(b) then 0 else ReportedBytes(calls[|calls| - 1], d))
  }

  lemma {:induction false} MarkedBytesConcat(a: seq<Observation>, b: seq<Observation>, d: Direction)
    ensures MarkedBytes(a + b, d) == MarkedBytes(a, d) + MarkedBytes(b, d)
  {
    if b == [] {
      assert a + b == a;
    } else {
      assert (a + b)[..|a + b| - 1] == a + b[..|b| - 1];
      MarkedBytesConcat(a, b[..|b| - 1], d);
    }
  }

  /** In each direction the bytes marked are the bytes counted before the terminal mark. */
  lemma {:induction false} BytesAreConserved(r: Resolution, calls: seq<Call>, d: Direction)
    requires d != OtherDirection
    ensures MarkedBytes(Marks(true, r, calls), d) == CountedBytes(calls, d)
  {
    if calls != [] {
      var b := calls[..|calls| - 1];
      BytesAreConserved(r, b, d);
      PhaseTellsOpenedAndClosed(r, b);
      var marked := Mark(true, r, PhaseAfter(true, r, b), calls[|calls| - 1]).1;
      MarkedBytesConcat(Marks(true, r, b), marked, d);
      MarkBytes(r, PhaseAfter(true, r, b), calls[|calls| - 1], d);
      ReportedIsCounted(calls[|calls| - 1], d);
    }
  }

  lemma ReportedIsCounted(call: Call, d: Direction)
    requires d != OtherDirection
    ensures BytesIn(call, d) == ReportedBytes(call, d)
  {
  }

  lemma MarkBytes(r: Resolution, phase: Phase, call: Call, d: Direction)
    requires d != OtherDirection
    ensures MarkedBytes(Mark(true, r, phase, call).1, d) == if phase.ended then 0 else BytesIn(call, d)
  {
    var marked := Mark(true, r, phase, call).1;
    if |marked| == 2 {
      assert marked == [marked[0]] + [marked[1]];
      MarkedBytesConcat([marked[0]], [marked[1]], d);
      MarkedBytesSingle(marked[0], d);
      MarkedBytesSingle(marked[1], d);
    } else if |marked| == 1 {
      assert marked == [marked[0]];
      MarkedBytesSingle(marked[0], d);
    }
  }

  lemma MarkedBytesSingle(o: Observation, d: Direction)
    ensures MarkedBytes([o], d) == ObservedBytes(o, d)
  {
    assert [o][..0] == [];
  }

  // The whole history, told from the calls alone.

  function StartEvent(r: Resolution): Observation {
    Observation(r.endpointKey, StreamStarted, ResultStarted, "none", r.observationKey, 0, 0)
  }

  function EndEvent(r: Resolution): Observation {
    Observation(r.endpointKey, StreamEnded, ResultEnded, "none", r.observationKey, 0, 0)
  }

  function RejectEvent(r: Resolution, reason: string): Observation {
    Observation(r.endpointKey, StreamRejected, ResultRejected,
                if reason == "" then "stream_open_failed" else reason, r.observationKey, 0, 0)
  }

  function ReportEvent(r: Resolution, call: Call): Observation {
    Observation(r.endpointKey, StreamUsageDelta, NoResult, "none", r.observationKey,
                ReportedBytes(call, IngressToEndpoint), ReportedBytes(call, EndpointToIngress))
  }

  predicate IsReport(call: Call) {
    ReportedBytes(call, IngressToEndpoint) > 0 || ReportedBytes(call, EndpointToIngress) > 0
  }

  /** One delta for each positive amount reported before the stream closed. */
  ghost function Reports(r: Resolution, calls: seq<Call>): seq<Observation> {
    if calls == [] then []
    else
      var b, last := calls[..|calls| - 1], calls[|calls| - 1];
      Reports(r, b) + (if IsReport(last) && !Closed(b) then [ReportEvent(r, last)] else [])
  }

  function FirstRejectReason(calls: seq<Call>): string {
    if calls == [] then ""
    else if calls[0].RejectCall? then calls[0].reason
    else FirstRejectReason(calls[1..])
  }

  /** The start, the deltas and the end of a stream that opened; the first rejection of one that was
      rejected; nothing else. */
  function Assemble(r: Resolution, phase: Phase, reports: seq<Observation>, reason: string): seq<Observation> {
    match phase
    case Phase(true, false) => [StartEvent(r)] + reports
    case Phase(true, true) => [StartEvent(r)] + reports + [EndEvent(r)]
    case Phase(false, true) => [RejectEvent(r, reason)]
    case Phase(false, false) => []
  }

  ghost function Expected(r: Resolution, calls: seq<Call>): seq<Observation> {
    Assemble(r, Phase(Opened(calls), Closed(calls)), Reports(r, calls), FirstRejectReason(calls))
  }

  lemma {:induction false} FirstRejectStays(calls: seq<Call>, last: Call)
    ensures FirstRejectReason(calls + [last]) ==
            if NoReject(calls) then (if last.RejectCall? then last.reason else "") else FirstRejectReason(calls)
  {
    var all := calls + [last];
    if calls == [] {
      assert all[1..] == [];
    } else {
      assert all[1..] == calls[1..] + [last];
      if !calls[0].RejectCall? {
        FirstRejectStays(calls[1..], last);
        assert NoReject(calls) <==> NoReject(calls[1..]) by {
          assert forall i :: 1 <= i < |calls| ==> calls[i] == calls[1..][i - 1];
        }
      }
    }
  }

  lemma {:induction false} UnopenedReportsNothing(r: Resolution, calls: seq<Call>)
    requires !Opened(calls)
    ensures Reports(r, calls) == []
  {
    if calls != [] {
      var b := calls[..|calls| - 1];
      OpenedStep(calls);
      UnopenedReportsNothing(r, b);
      PhaseTellsOpenedAndClosed(r, b);
    }
  }

  /** The mark history is exactly what the calls, in lock order, lead one to expect. */
  lemma {:induction false} HistoryIsExact(r: Resolution, calls: seq<Call>)
    ensures Marks(true, r, calls) == Expected(r, calls)
  {
    if calls != [] {
      var b, last := calls[..|calls| - 1], calls[|calls| - 1];
      HistoryIsExact(r, b);
      PhaseTellsOpenedAndClosed(r, b);
      PhaseTellsOpenedAndClosed(r, calls);
      if !Opened(b) {
        UnopenedReportsNothing(r, b);
      }
      assert calls == b + [last];
      FirstRejectStays(b, last);
      if !Opened(b) && Closed(b) {
        ClosedUnopenedHasReject(b);
      }
      AssembleStep(r, PhaseAfter(true, r, b), last, Reports(r, b), FirstRejectReason(b), FirstRejectReason(calls));
    } else {
      PhaseTellsOpenedAndClosed(r, calls);
    }
  }

  lemma AssembleStep(r: Resolution, phase: Phase, call: Call, reports: seq<Observation>, before: string, after: string)
    requires !phase.started ==> reports == []
    requires phase == Phase(false, true) ==> after == before
    requires phase == Phase(false, false) && call.RejectCall? ==> after == call.reason
    ensures var (next, marked) := Mark(true, r, phase, call);
            var more := if IsReport(call) && !phase.ended then [ReportEvent(r, call)] else [];
            Assemble(r, phase, reports, before) + marked == Assemble(r, next, reports + more, after)
  {
    match call
    case StartCall =>
    case AddBytesCall(_, _) =>
      if !phase.ended {
        ReportStep(r, phase, call, reports);
      }
    case EndCall =>
    case RejectCall(_) =>
  }

  lemma ReportStep(r: Resolution, phase: Phase, call: Call, reports: seq<Observation>)
    requires call.AddBytesCall? && !phase.ended && (!phase.started ==> reports == [])
    ensures IsReport(call) <==> CountsBytes(call)
    ensures CountsBytes(call) ==>
              Mark(true, r, phase, call) ==
              (Phase(true, false), (if phase.started then [] else [StartEvent(r)]) + [ReportEvent(r, call)])
  {
  }

  // The goroutine that proxies a stream.

  /** What the goroutine calls once ProxyStream has returned; failure is its error's reason. */
  function TailCalls(phase: Phase, observing: bool, failure: Option<string>): seq<Call> {
    match failure
    case None => [EndCall]
    case Some(reason) =>
      if observing && !phase.started && !phase.ended then [RejectCall(reason)] else [RejectCall(reason), EndCall]
  }

  method GoroutineTail(lifecycle: PassthroughStreamLifecycle, failure: Option<string>)
    requires lifecycle.Valid()
    modifies lifecycle, lifecycle.observer
    ensures lifecycle.Valid() && lifecycle.Delivered()
    ensures var phase := old(Phase(lifecycle.started, lifecycle.ended));
            lifecycle.calls == old(lifecycle.calls) + TailCalls(phase, lifecycle.observer != null, failure)
  {
    match failure {
      case Some(reason) =>
        var rejected := lifecycle.Reject(reason);
        if !rejected {
          lifecycle.End();
        }
      case None =>
        lifecycle.End();
    }
  }

  function Occurrences(h: seq<Observation>, e: EventType): nat {
    if h == [] then 0
    else Occurrences(h[..|h| - 1], e) + (if h[|h| - 1].eventType == e then 1 else 0)
  }

  lemma {:induction false} NoOccurrence(h: seq<Observation>, e: EventType)
    requires forall i :: 0 <= i < |h| ==> h[i].eventType != e
    ensures Occurrences(h, e) == 0
  {
    if h != [] {
      NoOccurrence(h[..|h| - 1], e);
    }
  }

  lemma PhaseOccurrences(phase: Phase, h: seq<Observation>)
    requires HistoryOf(phase, h)
    ensures Occurrences(h, StreamEnded) == if phase.started && phase.ended then 1 else 0
    ensures Occurrences(h, StreamRejected) == if !phase.started && phase.ended then 1 else 0
  {
    if h != [] {
      NoOccurrence(h[..|h| - 1], StreamEnded);
      NoOccurrence(h[..|h| - 1], StreamRejected);
    }
  }

  /** Exactly one terminal event: the end of a stream that opened, or the rejection of one that
      did not. */
  predicate IsSettled(h: seq<Observation>, started: bool) {
    && Occurrences(h, StreamEnded) == (if started then 1 else 0)
    && Occurrences(h, StreamRejected) == (if started then 0 else 1)
    && (!started ==> SingleReject(h))
  }

  /** What the tail marks: the end of a stream that is open, or the rejection, with its reason, of one
      that failed and never opened. */
  ghost function TailEvents(r: Resolution, core: seq<Call>, failure: Option<string>): seq<Observation> {
    if Opened(core) then (if Closed(core) then [] else [EndEvent(r)])
    else match failure case Some(reason) => [RejectEvent(r, reason)] case None => []
  }

  /** Whatever the core called before ProxyStream returned, the tail leaves exactly one terminal
      event after an error (a rejection if the stream never opened, an end otherwise), and after
      success exactly one end if the stream ever opened and nothing at all if it did not. */
  lemma TailSettlesStream(r: Resolution, core: seq<Call>, failure: Option<string>)
    requires NoReject(core)
    ensures var h := Marks(true, r, core + TailCalls(PhaseAfter(true, r, core), true, failure));
            && h == Marks(true, r, core) + TailEvents(r, core, failure)
            && (failure.Some? || Opened(core) ==> IsSettled(h, Opened(core)))
            && (failure.Some? && !Opened(core) ==> h == [RejectEvent(r, failure.value)])
            && (failure.None? && !Opened(core) ==> h == [])
  {
    var p := PhaseAfter(true, r, core);
    var all := core + TailCalls(p, true, failure);
    PhaseTellsOpenedAndClosed(r, core);
    HistoryMatchesPhase(true, r, core);
    if !Opened(core) && Closed(core) {
      ClosedUnopenedHasReject(core);
    }
    TailPhase(r, core, failure);
    TailMarks(r, core, failure);
    HistoryMatchesPhase(true, r, all);
    PhaseOccurrences(PhaseAfter(true, r, all), Marks(true, r, all));
  }

  lemma TailPhase(r: Resolution, core: seq<Call>, failure: Option<string>)
    ensures var p := PhaseAfter(true, r, core);
            PhaseAfter(true, r, core + TailCalls(p, true, failure)) ==
            Phase(p.started, p.started || p.ended || failure.Some?)
  {
    var p := PhaseAfter(true, r, core);
    var tail := TailCalls(p, true, failure);
    var all := core + tail;
    PhaseStep(r, core, tail[0]);
    if |tail| == 1 {
      assert all == core + [tail[0]];
    } else {
      var first := core + [tail[0]];
      assert all == first + [tail[1]];
      PhaseStep(r, first, tail[1]);
    }
  }

  lemma TailMarks(r: Resolution, core: seq<Call>, failure: Option<string>)
    requires PhaseAfter(true, r, core) == Phase(Opened(core), Closed(core)) && (Closed(core) ==> Opened(core))
    ensures var tail := TailCalls(PhaseAfter(true, r, core), true, failure);
            Marks(true, r, core + tail) == Marks(true, r, core) + TailEvents(r, core, failure)
  {
    var tail := TailCalls(PhaseAfter(true, r, core), true, failure);
    MarksStep(r, core, tail[0]);
    PhaseStep(r, core, tail[0]);
    if |tail| == 1 {
      assert core + tail == core + [tail[0]];
    } else {
      var first := core + [tail[0]];
      assert core + tail == first + [tail[1]];
      MarksStep(r, first, tail[1]);
    }
  }

  lemma MarksStep(r: Resolution, calls: seq<Call>, call: Call)
    ensures Marks(true, r, calls + [call]) ==
            Marks(true, r, calls) + Mark(true, r, PhaseAfter(true, r, calls), call).1
  {
    var all := calls + [call];
    assert all[..|all| - 1] == calls && all[|all| - 1] == call;
  }

  lemma PhaseStep(r: Resolution, calls: seq<Call>, call: Call)
    ensures PhaseAfter(true, r, calls + [call]) == Mark(true, r, PhaseAfter(true, r, calls), call).0
  {
    var all := calls + [call];
    assert all[..|all| - 1] == calls && all[|all| - 1] == call;
  }

  /** A connection that is refused before any stream exists reports exactly one rejection, under the
      keys of the resolution it was refused with. */
  lemma RefusalMarksOneRejection(r: Resolution, reason: string)
    requires reason != ""
    ensures Marks(true, r, [RejectCall(reason)]) == [RejectEvent(r, reason)]
    ensures RejectEvent(r, reason) == Event(r, StreamRejected, ResultRejected, reason)
  {
    assert [RejectCall(reason)][..0] == [];
  }
}
