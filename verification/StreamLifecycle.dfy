/** The lifecycle of one passthrough stream: what each call marks under the mutex, the histories
    this allows, and the bytes they account for. */
module StreamLifecycle {
  import opened Bifrost
  import opened Wrappers

  datatype EventType = StreamStarted | StreamUsageDelta | StreamEnded | StreamRejected

  datatype StreamResult = NoResult | ResultStarted | ResultEnded | ResultRejected

  const REASON_NONE := "none"
  const REASON_STREAM_OPEN_FAILED := "stream_open_failed"

  datatype Resolution = Resolution(endpointKey: string, observationKey: string)

  datatype Observation = Observation(
    endpointKey: string, eventType: EventType, result: StreamResult, reason: string,
    observationKey: string, bytesIngressToEndpoint: int, bytesEndpointToIngress: int)

  function Event(r: Resolution, eventType: EventType, result: StreamResult, reason: string): Observation {
    Observation(r.endpointKey, eventType, result, reason, r.observationKey, 0, 0)
  }

  /** The calls made on a lifecycle. */
  datatype Call =
    | StartCall
    | AddBytesCall(direction: Direction, n: int)
    | EndCall
    | RejectCall(reason: string)

  /** The mutable part of a lifecycle. */
  datatype Phase = Phase(started: bool, ended: bool)

  /** The calls that open a stream if nothing was marked yet. */
  predicate Opens(call: Call) {
    call.StartCall? || CountsBytes(call)
  }

  predicate CountsBytes(call: Call) {
    call.AddBytesCall? && call.n > 0 && call.direction != OtherDirection
  }

  function BytesIn(call: Call, d: Direction): int {
    if CountsBytes(call) && call.direction == d then call.n else 0
  }

  /** What a usage report does under the mutex; it opens a stream that was not started. */
  function MarkUsage(observing: bool, r: Resolution, phase: Phase, ingress: int, egress: int): (Phase, seq<Observation>)
  {
    if !observing || phase.ended || (ingress <= 0 && egress <= 0) then (phase, [])
    else
      var usage := Event(r, StreamUsageDelta, NoResult, REASON_NONE).(
        bytesIngressToEndpoint := ingress, bytesEndpointToIngress := egress);
      (Phase(true, false),
       (if phase.started then [] else [Event(r, StreamStarted, ResultStarted, REASON_NONE)]) + [usage])
  }

  /** What one call does under the mutex: the new phase and the observations it marks. */
  function Mark(observing: bool, r: Resolution, phase: Phase, call: Call): (Phase, seq<Observation>) {
    if !observing || phase.ended then (phase, [])
    else
      match call
      case StartCall =>
        if phase.started then (phase, [])
        else (Phase(true, false), [Event(r, StreamStarted, ResultStarted, REASON_NONE)])
      case AddBytesCall(d, n) =>
        MarkUsage(observing, r, phase, BytesIn(call, IngressToEndpoint), BytesIn(call, EndpointToIngress))
      case EndCall =>
        if !phase.started then (phase, [])
        else (Phase(true, true), [Event(r, StreamEnded, ResultEnded, REASON_NONE)])
      case RejectCall(reason) =>
        if phase.started then (phase, [])
        else (Phase(false, true),
              [Event(r, StreamRejected, ResultRejected, if reason == "" then REASON_STREAM_OPEN_FAILED else reason)])
  }

  /** The phase after calls that took the mutex in this order. */
  function PhaseAfter(observing: bool, r: Resolution, calls: seq<Call>): Phase {
    if calls == [] then Phase(false, false)
    else Mark(observing, r, PhaseAfter(observing, r, calls[..|calls| - 1]), calls[|calls| - 1]).0
  }

  /** The mark history: every observation those calls marked, in lock order. */
  function Marks(observing: bool, r: Resolution, calls: seq<Call>): seq<Observation> {
    if calls == [] then []
    else
      var before := calls[..|calls| - 1];
      Marks(observing, r, before) + Mark(observing, r, PhaseAfter(observing, r, before), calls[|calls| - 1]).1
  }

  /** Where the source delivers observations. */
  class StreamObserver {
    var received: seq<Observation>

    constructor ()
      ensures received == []
    {
      received := [];
    }

    method ObservePassthroughStream(o: Observation)
      modifies this
      ensures received == old(received) + [o]
    {
      received := received + [o];
    }
  }

  class PassthroughStreamLifecycle {
    const observer: StreamObserver?
    const resolution: Resolution
    var started: bool
    var ended: bool
    /** The calls that took the mutex so far. */
    ghost var calls: seq<Call>

    constructor (observer: StreamObserver?, resolution: Resolution)
      ensures this.observer == observer && this.resolution == resolution
      ensures Valid() && calls == []
    {
      this.observer, this.resolution := observer, resolution;
      started, ended, calls := false, false, [];
    }

    ghost predicate Valid()
      reads this
    {
      Phase(started, ended) == PhaseAfter(observer != null, resolution, calls)
    }

    ghost function Marked(): seq<Observation>
      reads this
    {
      Marks(observer != null, resolution, calls)
    }

    function ObservationAt(event: EventType, result: StreamResult, reason: string): (o: Observation)
      ensures o == Event(resolution, event, result, reason)
    {
      Observation(resolution.endpointKey, event, result, reason, resolution.observationKey, 0, 0)
    }

    ghost method Record(call: Call)
      modifies this`calls
      ensures calls == old(calls) + [call]
      ensures Marked() == old(Marked())
              + Mark(observer != null, resolution, PhaseAfter(observer != null, resolution, old(calls)), call).1
      ensures PhaseAfter(observer != null, resolution, calls)
           == Mark(observer != null, resolution, PhaseAfter(observer != null, resolution, old(calls)), call).0
    {
      calls := calls + [call];
      assert calls[..|calls| - 1] == old(calls);
    }

    method MarkStarted() returns (marked: Option<Observation>)
      requires Valid()
      modifies this
      ensures Valid() && calls == old(calls) + [StartCall]
      ensures Marked() == old(Marked()) + (if marked.Some? then [marked.value] else [])
      ensures marked.Some? ==> observer != null
    {
      Record(StartCall);
      if observer == null || started || ended {
        return None;
      }
      started := true;
      return Some(ObservationAt(StreamStarted, ResultStarted, REASON_NONE));
    }

    /** Any amounts, of which AddBytes passes one positive and one zero. */
    method MarkUsageDelta(ingress: int, egress: int) returns (marked: seq<Observation>)
      modifies this`started
      ensures Phase(started, ended) ==
              MarkUsage(observer != null, resolution, Phase(old(started), ended), ingress, egress).0
      ensures marked == MarkUsage(observer != null, resolution, Phase(old(started), ended), ingress, egress).1
      ensures marked != [] ==> observer != null
    {
      if ingress <= 0 && egress <= 0 {
        return [];
      }
      if observer == null || ended {
        return [];
      }
      marked := [];
      if !started {
        started := true;
        marked := marked + [ObservationAt(StreamStarted, ResultStarted, REASON_NONE)];
      }
      var usage := ObservationAt(StreamUsageDelta, NoResult, REASON_NONE);
      usage := usage.(bytesIngressToEndpoint := ingress, bytesEndpointToIngress := egress);
      marked := marked + [usage];
    }

    method MarkEnded() returns (marked: Option<Observation>)
      requires Valid()
      modifies this
      ensures Valid() && calls == old(calls) + [EndCall]
      ensures Marked() == old(Marked()) + (if marked.Some? then [marked.value] else [])
      ensures marked.Some? ==> observer != null
    {
      Record(EndCall);
      if observer == null || !started || ended {
        return None;
      }
      ended := true;
      return Some(ObservationAt(StreamEnded, ResultEnded, REASON_NONE));
    }

    method MarkRejected(reason: string) returns (marked: Option<Observation>)
      requires Valid()
      modifies this
      ensures Valid() && calls == old(calls) + [RejectCall(reason)]
      ensures Marked() == old(Marked()) + (if marked.Some? then [marked.value] else [])
      ensures marked.Some? ==> observer != null
      ensures marked.Some? <==> observer != null && !old(started) && !old(ended)
    {
      Record(RejectCall(reason));
      if observer == null || started || ended {
        return None;
      }
      ended := true;
      var given := if reason == "" then REASON_STREAM_OPEN_FAILED else reason;
      return Some(ObservationAt(StreamRejected, ResultRejected, given));
    }

    /** What a call marked has also been delivered. */
    twostate predicate Delivered()
      reads this, observer
    {
      && old(Marked()) <= Marked()
      && (observer == null ==> Marked() == old(Marked()))
      && (observer != null ==> observer.received == old(observer.received) + Marked()[|old(Marked())|..])
    }

    method DeliverOne(marked: Option<Observation>)
      requires marked.Some? ==> observer != null
      modifies observer
      ensures observer != null ==>
              observer.received == old(observer.received) + (if marked.Some? then [marked.value] else [])
    {
      if marked.Some? {
        observer.ObservePassthroughStream(marked.value);
      }
    }

    method Start()
      requires Valid()
      modifies this, observer
      ensures Valid() && calls == old(calls) + [StartCall] && Delivered()
    {
      var marked := MarkStarted();
      DeliverOne(marked);
    }

    method End()
      requires Valid()
      modifies this, observer
      ensures Valid() && calls == old(calls) + [EndCall] && Delivered()
    {
      var marked := MarkEnded();
      DeliverOne(marked);
    }

    method Reject(reason: string) returns (ok: bool)
      requires Valid()
      modifies this, observer
      ensures Valid() && calls == old(calls) + [RejectCall(reason)] && Delivered()
      ensures ok <==> observer != null && !old(started) && !old(ended)
    {
      var marked := MarkRejected(reason);
      DeliverOne(marked);
      ok := marked.Some?;
    }

    method AddBytes(direction: Direction, n: int)
      requires Valid()
      modifies this, observer
      ensures Valid() && Delivered()
      ensures calls == old(calls)
                       + if CountsBytes(AddBytesCall(direction, n)) then [AddBytesCall(direction, n)] else []
    {
      if n <= 0 {
        return;
      }
      var ingress, egress := 0, 0;
      match direction {
        case IngressToEndpoint => ingress := n;
        case EndpointToIngress => egress := n;
        case OtherDirection => return;
      }
      Record(AddBytesCall(direction, n));
      var marked := MarkUsageDelta(ingress, egress);
      DeliverAll(marked);
      assert Marked()[|old(Marked())|..] == marked;
    }

    method DeliverAll(marked: seq<Observation>)
      requires marked != [] ==> observer != null
      modifies observer
      ensures observer != null ==> observer.received == old(observer.received) + marked
    {
      for i := 0 to |marked|
        invariant observer != null ==> observer.received == old(observer.received) + marked[..i]
      {
        observer.ObservePassthroughStream(marked[i]);
      }
      assert marked[..|marked|] == marked;
    }
  }
}
