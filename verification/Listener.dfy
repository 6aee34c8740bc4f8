/** The accept loop: which connections go back to Caddy, which are closed and which are proxied. */
module Listener {
  import opened Wrappers
  import opened Strings
  import opened Peek
  import opened StreamLifecycle
  import opened StreamHistory
  import opened Routes

  const REASON_RESOLVER_ERROR := "resolver_error"
  const REASON_EMPTY_ENDPOINT := "empty_endpoint"

  /** The installed passthrough resolver; a static table answers through the observing interface. */
  datatype Resolver =
    | NoResolver
    | Plain(resolve: string -> Result<Option<string>, ()>)
    | Observing(observe: string -> Result<Option<Resolution>, ()>)
    | Static(table: map<string, string>)

  function ResolvePassthrough(resolver: Resolver, serverName: string): Result<Option<Resolution>, ()> {
    match resolver
    case NoResolver => Ok(None)
    case Observing(observe) => observe(serverName)
    case Static(table) =>
      (match Resolve(table, serverName)
       case None => Ok(None)
       case Some(endpoint) => Ok(Some(Resolution(endpoint, ""))))
    case Plain(resolve) =>
      (match resolve(serverName)
       case Err(e) => Err(e)
       case Ok(None) => Ok(None)
       case Ok(Some(endpoint)) => Ok(Some(Resolution(endpoint, ""))))
  }

  /** A connection to be accepted: how its handshake will go, and the resolver of the server runtime
      when it is handled, if there is a server runtime. */
  datatype Arrival = Arrival(conn: NetConn, actions: seq<HandshakeAction>, end: HandshakeEnd, server: Option<Resolver>)

  datatype Disposition =
    | ReturnToCaddy
    | CloseUnavailable
    | CloseResolverError
    | CloseEmptyEndpoint(resolution: Resolution)
    | Proxy(resolution: Resolution)

  function PeekedName(end: HandshakeEnd): string {
    match end.helloName case Some(name) => name case None => ""
  }

  function DispositionOf(a: Arrival): Disposition {
    if a.end.error == OtherError then ReturnToCaddy
    else if a.server == None then CloseUnavailable
    else
      match ResolvePassthrough(a.server.value, PeekedName(a.end))
      case Err(_) => CloseResolverError
      case Ok(None) => ReturnToCaddy
      case Ok(Some(resolution)) =>
        if TrimSpace(resolution.endpointKey) == "" then CloseEmptyEndpoint(resolution) else Proxy(resolution)
  }

  /** The rejections an observer sees for a refused connection. */
  function RejectionsOf(d: Disposition): seq<Observation> {
    match d
    case CloseResolverError => [Event(Resolution("", ""), StreamRejected, ResultRejected, REASON_RESOLVER_ERROR)]
    case CloseEmptyEndpoint(resolution) => [Event(resolution, StreamRejected, ResultRejected, REASON_EMPTY_ENDPOINT)]
    case _ => []
  }

  /** Where the connections went, each log in order: proxiedTo lists the resolutions of the proxied
      ones and rejections what the observer was told about the closed ones. */
  datatype Logs = Logs(
    returned: seq<NetConn>, closed: seq<NetConn>, proxied: seq<NetConn>,
    proxiedTo: seq<Resolution>, rejections: seq<Observation>)

  function Record(logs: Logs, a: Arrival): Logs {
    var d := DispositionOf(a);
    if d.ReturnToCaddy? then logs.(returned := logs.returned + [a.conn])
    else if d.Proxy? then logs.(proxied := logs.proxied + [a.conn], proxiedTo := logs.proxiedTo + [d.resolution])
    else logs.(closed := logs.closed + [a.conn], rejections := logs.rejections + RejectionsOf(d))
  }

  function LogsOf(arrivals: seq<Arrival>): Logs {
    if arrivals == [] then Logs([], [], [], [], [])
    else Record(LogsOf(arrivals[..|arrivals| - 1]), arrivals[|arrivals| - 1])
  }

  lemma LogsAppend(before: seq<Arrival>, a: Arrival)
    ensures LogsOf(before + [a]) == Record(LogsOf(before), a)
  {
    var all := before + [a];
    assert all[..|all| - 1] == before && all[|all| - 1] == a;
  }

  /** No connection is accepted twice. */
  ghost predicate Distinct(arrivals: seq<Arrival>) {
    arrivals != [] ==> (forall a :: a in arrivals[1..] ==> a.conn != arrivals[0].conn) && Distinct(arrivals[1..])
  }

  class BifrostListener {
    const observer: StreamObserver?
    /** Connections the wrapped listener will still accept; then its Accept fails. */
    var incoming: seq<Arrival>
    /** The effects so far. */
    var closed: seq<NetConn>
    var proxied: seq<NetConn>
    var proxiedTo: seq<Resolution>
    ghost var accepted: seq<Arrival>
    ghost var returned: seq<NetConn>
    ghost const heardBefore: seq<Observation>

    constructor (observer: StreamObserver?, incoming: seq<Arrival>)
      ensures this.observer == observer && this.incoming == incoming
      ensures accepted == [] && Accounted()
    {
      this.observer, this.incoming := observer, incoming;
      closed, proxied, proxiedTo, accepted, returned := [], [], [], [], [];
      heardBefore := if observer == null then [] else observer.received;
    }

    /** The connections still to come are untouched and pairwise distinct. */
    ghost predicate Fresh()
      reads this, set a | a in incoming :: a.conn
    {
      (forall a :: a in incoming ==> a.conn.pos == 0) && Distinct(incoming)
    }

    /** This connection will not come again. */
    ghost predicate Gone(conn: NetConn)
      reads this
    {
      forall a :: a in incoming ==> a.conn != conn
    }

    /** The effects so far are those of the logs. */
    ghost predicate Shows(logs: Logs)
      reads this, observer
    {
      && closed == logs.closed && proxied == logs.proxied && proxiedTo == logs.proxiedTo
      && (observer != null ==> observer.received == heardBefore + logs.rejections)
    }

    /** Every accepted connection met the fate its arrival calls for, and only that. */
    ghost predicate Accounted()
      reads this, observer
    {
      returned == LogsOf(accepted).returned && Shows(LogsOf(accepted))
    }

    method ObserveRejected(resolution: Resolution, reason: string)
      requires reason != ""
      modifies observer
      ensures observer != null ==>
                observer.received == old(observer.received)
                  + [Event(resolution, StreamRejected, ResultRejected, reason)]
    {
      var lifecycle := new PassthroughStreamLifecycle(observer, resolution);
      var _ := lifecycle.Reject(reason);
      RefusalMarksOneRejection(resolution, reason);
      assert lifecycle.calls == [RejectCall(reason)];
    }

    /** Returns the replaying connection, or None when the connection was handled here. */
    method HandleConnection(a: Arrival, ghost logs: Logs) returns (result: Option<ReplayConn>)
      requires a.conn.pos == 0 && Shows(logs)
      modifies this`closed, this`proxied, this`proxiedTo, a.conn`pos, observer
      ensures a.conn.sent == old(a.conn.sent)
      ensures Shows(Record(logs, a))
      ensures result.Some? <==> DispositionOf(a).ReturnToCaddy?
      ensures result.Some? ==>
                fresh(result.value) && result.value.conn == a.conn && result.value.Whole()
    {
      var serverName, replayConn := PeekClientHelloServerName(a.conn, a.actions, a.end);
      if serverName.Err? {
        return Some(replayConn);
      }
      if a.server.None? {
        closed := closed + [a.conn];
        return None;
      }
      match ResolvePassthrough(a.server.value, serverName.value) {
        case Err(_) =>
          ObserveRejected(Resolution("", ""), REASON_RESOLVER_ERROR);
          closed := closed + [a.conn];
          return None;
        case Ok(None) =>
          return Some(replayConn);
        case Ok(Some(resolution)) =>
          if TrimSpace(resolution.endpointKey) == "" {
            ObserveRejected(resolution, REASON_EMPTY_ENDPOINT);
            closed := closed + [a.conn];
            return None;
          }
          proxied, proxiedTo := proxied + [a.conn], proxiedTo + [resolution];
          return None;
      }
    }

    /** One round of the accept loop. */
    method AcceptNext() returns (result: Option<ReplayConn>)
      requires Fresh() && Accounted() && incoming != []
      modifies this`incoming, this`closed, this`proxied, this`proxiedTo, this`accepted, this`returned, observer,
               incoming[0].conn`pos
      ensures Fresh() && Accounted()
      ensures incoming == old(incoming)[1..] && accepted == old(accepted) + [old(incoming)[0]]
      ensures result.None? ==> returned == old(returned)
      ensures result.Some? ==>
                && result.value.conn == old(incoming)[0].conn && Gone(result.value.conn)
                && returned == old(returned) + [result.value.conn]
                && fresh(result.value) && result.value.Whole()
    {
      var a := incoming[0];
      incoming := incoming[1..];
      result := HandleConnection(a, LogsOf(accepted));
      LogsAppend(accepted, a);
      accepted := accepted + [a];
      if result.Some? {
        returned := returned + [a.conn];
      }
    }

    /** Accepts until a connection is to be returned or the wrapped listener fails. */
    method Accept() returns (r: Option<ReplayConn>)
      requires Fresh() && Accounted()
      modifies this`incoming, this`closed, this`proxied, this`proxiedTo, this`accepted, this`returned, observer
      modifies set a | a in incoming :: a.conn`pos
      ensures Fresh() && Accounted()
      ensures accepted + incoming == old(accepted + incoming) && |incoming| <= |old(incoming)|
      ensures forall a :: a in incoming ==> a in old(incoming)
      ensures r.None? ==> incoming == [] && returned == old(returned)
      ensures r.Some? ==>
                && |incoming| < |old(incoming)| && Gone(r.value.conn)
                && returned == old(returned) + [r.value.conn]
                && fresh(r.value) && r.value.Whole()
    {
      r := None;
      while incoming != [] && r.None?
        invariant Fresh() && Accounted()
        invariant accepted + incoming == old(accepted + incoming) && |incoming| <= |old(incoming)|
        invariant forall a :: a in incoming ==> a in old(incoming)
        invariant r.None? ==> returned == old(returned)
        invariant r.Some? ==>
                    && |incoming| < |old(incoming)| && Gone(r.value.conn)
                    && returned == old(returned) + [r.value.conn]
                    && fresh(r.value) && r.value.Whole()
        decreases |incoming|
      {
        ghost var before := incoming;
        r := AcceptNext();
        assert before == [before[0]] + incoming;
      }
    }
  }

  // What happens to a connection, told by the answer of the resolver itself.

  predicate Peeked(a: Arrival) {
    a.end.error != OtherError
  }

  /** The resolver in force answers this name with this resolution. */
  ghost predicate Answers(a: Arrival, r: Resolution) {
    && a.server.Some?
    && match a.server.value
       case NoResolver => false
       case Plain(resolve) => resolve(PeekedName(a.end)) == Ok(Some(r.endpointKey)) && r.observationKey == ""
       case Observing(observe) => observe(PeekedName(a.end)) == Ok(Some(r))
       case Static(table) => Resolve(table, PeekedName(a.end)) == Some(r.endpointKey) && r.observationKey == ""
  }

  /** The resolver in force fails for this name. */
  ghost predicate Errs(a: Arrival) {
    && a.server.Some?
    && match a.server.value
       case Plain(resolve) => resolve(PeekedName(a.end)).Err?
       case Observing(observe) => observe(PeekedName(a.end)).Err?
       case _ => false
  }

  /** There is no resolver, or the one in force knows no route for this name. */
  ghost predicate HasNoRoute(a: Arrival) {
    && a.server.Some?
    && match a.server.value
       case NoResolver => true
       case Plain(resolve) => resolve(PeekedName(a.end)) == Ok(None)
       case Observing(observe) => observe(PeekedName(a.end)) == Ok(None)
       case Static(table) => Resolve(table, PeekedName(a.end)) == None
  }

  lemma AnswersIff(a: Arrival, r: Resolution)
    requires a.server.Some?
    ensures Answers(a, r) <==> ResolvePassthrough(a.server.value, PeekedName(a.end)) == Ok(Some(r))
    ensures Errs(a) <==> ResolvePassthrough(a.server.value, PeekedName(a.end)).Err?
    ensures HasNoRoute(a) <==> ResolvePassthrough(a.server.value, PeekedName(a.end)) == Ok(None)
  {
  }

  /** The fate of a connection follows from how its peek ended and what its resolver answers. */
  lemma DispositionIff(a: Arrival, r: Resolution)
    ensures DispositionOf(a) == ReturnToCaddy <==> !Peeked(a) || HasNoRoute(a)
    ensures DispositionOf(a) == CloseUnavailable <==> Peeked(a) && a.server.None?
    ensures DispositionOf(a) == CloseResolverError <==> Peeked(a) && Errs(a)
    ensures DispositionOf(a) == CloseEmptyEndpoint(r) <==> Peeked(a) && Answers(a, r) && IsBlank(r.endpointKey)
    ensures DispositionOf(a) == Proxy(r) <==> Peeked(a) && Answers(a, r) && !IsBlank(r.endpointKey)
  {
    BlankIff(r.endpointKey);
    if a.server.Some? {
      AnswersIff(a, r);
    }
  }

  /** A connection goes back to Caddy when its peek failed or its server resolved the name, without
      error, to no route. */
  ghost predicate GoesBack(a: Arrival) {
    !Peeked(a) || HasNoRoute(a)
  }

  ghost function GoingBack(arrivals: seq<Arrival>): seq<NetConn> {
    if arrivals == [] then []
    else
      var last := arrivals[|arrivals| - 1];
      GoingBack(arrivals[..|arrivals| - 1]) + (if GoesBack(last) then [last.conn] else [])
  }

  lemma {:induction false} ReturnedAreGoingBack(arrivals: seq<Arrival>)
    ensures LogsOf(arrivals).returned == GoingBack(arrivals)
  {
    if arrivals != [] {
      ReturnedAreGoingBack(arrivals[..|arrivals| - 1]);
      DispositionIff(arrivals[|arrivals| - 1], Resolution("", ""));
    }
  }

  /** The connections whose name resolved to an endpoint. */
  ghost function ToBeProxied(arrivals: seq<Arrival>): seq<NetConn> {
    if arrivals == [] then []
    else
      var last := arrivals[|arrivals| - 1];
      ToBeProxied(arrivals[..|arrivals| - 1])
      + if Peeked(last) && exists r :: Answers(last, r) && !IsBlank(r.endpointKey) then [last.conn] else []
  }

  lemma {:induction false} ProxiedAreToBeProxied(arrivals: seq<Arrival>)
    ensures LogsOf(arrivals).proxied == ToBeProxied(arrivals)
  {
    if arrivals != [] {
      var last := arrivals[|arrivals| - 1];
      ProxiedAreToBeProxied(arrivals[..|arrivals| - 1]);
      forall r: Resolution
        ensures DispositionOf(last) == Proxy(r) <==> Peeked(last) && Answers(last, r) && !IsBlank(r.endpointKey)
      {
        DispositionIff(last, r);
      }
      assert DispositionOf(last).Proxy? ==> DispositionOf(last) == Proxy(DispositionOf(last).resolution);
    }
  }

  /** The connections without a server, with a failing resolver or with a blank answer. */
  ghost function ToBeClosed(arrivals: seq<Arrival>): seq<NetConn> {
    if arrivals == [] then []
    else
      var last := arrivals[|arrivals| - 1];
      ToBeClosed(arrivals[..|arrivals| - 1])
      + if Peeked(last) && (last.server.None? || Errs(last) || exists r :: Answers(last, r) && IsBlank(r.endpointKey))
        then [last.conn] else []
  }

  lemma {:induction false} ClosedAreToBeClosed(arrivals: seq<Arrival>)
    ensures LogsOf(arrivals).closed == ToBeClosed(arrivals)
  {
    if arrivals != [] {
      var last := arrivals[|arrivals| - 1];
      ClosedAreToBeClosed(arrivals[..|arrivals| - 1]);
      var d := DispositionOf(last);
      DispositionIff(last, Resolution("", ""));
      forall r: Resolution
        ensures d == CloseEmptyEndpoint(r) <==> Peeked(last) && Answers(last, r) && IsBlank(r.endpointKey)
      {
        DispositionIff(last, r);
      }
      assert d.CloseEmptyEndpoint? ==> d == CloseEmptyEndpoint(d.resolution);
    }
  }

  /** What the observer should hear of one connection that is refused before any stream exists. */
  ghost predicate IsHeard(a: Arrival, heard: seq<Observation>) {
    if Peeked(a) && Errs(a) then
      heard == [Observation("", StreamRejected, ResultRejected, "resolver_error", "", 0, 0)]
    else if Peeked(a) && exists r :: Answers(a, r) && IsBlank(r.endpointKey) then
      exists r :: Answers(a, r)
        && heard == [Observation(r.endpointKey, StreamRejected, ResultRejected, "empty_endpoint", r.observationKey, 0,
                                 0)]
    else heard == []
  }

  /** heard lists the refusals of these connections, in order. */
  ghost predicate AreHeard(arrivals: seq<Arrival>, heard: seq<Observation>) {
    if arrivals == [] then heard == []
    else
      exists k :: 0 <= k <= |heard|
        && AreHeard(arrivals[..|arrivals| - 1], heard[..k]) && IsHeard(arrivals[|arrivals| - 1], heard[k..])
  }

  lemma RejectionIsHeard(a: Arrival)
    ensures IsHeard(a, RejectionsOf(DispositionOf(a)))
  {
    var d := DispositionOf(a);
    DispositionIff(a, Resolution("", ""));
    forall r: Resolution
      ensures d == CloseEmptyEndpoint(r) <==> Peeked(a) && Answers(a, r) && IsBlank(r.endpointKey)
    {
      DispositionIff(a, r);
    }
    if d.CloseEmptyEndpoint? {
      assert d == CloseEmptyEndpoint(d.resolution);
      assert Answers(a, d.resolution);
    }
  }

  lemma {:induction false} RejectionsAreHeard(arrivals: seq<Arrival>)
    ensures AreHeard(arrivals, LogsOf(arrivals).rejections)
  {
    if arrivals != [] {
      var before, last := arrivals[..|arrivals| - 1], arrivals[|arrivals| - 1];
      var earlier, all := LogsOf(before).rejections, LogsOf(arrivals).rejections;
      RejectionsAreHeard(before);
      RejectionIsHeard(last);
      RecordRejections(LogsOf(before), last);
      assert all[..|earlier|] == earlier && all[|earlier|..] == RejectionsOf(DispositionOf(last));
    }
  }

  lemma RecordRejections(logs: Logs, a: Arrival)
    ensures Record(logs, a).rejections == logs.rejections + RejectionsOf(DispositionOf(a))
  {
  }

  /** These connections wrap those, one for one. */
  ghost predicate Wrap(conns: seq<ReplayConn>, originals: seq<NetConn>) {
    && |conns| == |originals|
    && forall k :: 0 <= k < |conns| ==> conns[k].conn == originals[k]
  }

  /** The connections handed out so far: none of them will come again or has lost anything. */
  ghost predicate Served(listener: BifrostListener, conns: seq<ReplayConn>)
    reads listener, listener.observer, set a | a in listener.incoming :: a.conn, conns, set r | r in conns :: r.conn
  {
    && listener.Fresh() && listener.Accounted() && Wrap(conns, listener.returned)
    && forall k :: 0 <= k < |conns| ==> conns[k].Whole() && listener.Gone(conns[k].conn)
  }

  method ServeNext(listener: BifrostListener, conns: seq<ReplayConn>) returns (more: bool, conns': seq<ReplayConn>)
    requires Served(listener, conns)
    modifies listener, listener.observer, set a | a in listener.incoming :: a.conn`pos
    ensures Served(listener, conns')
    ensures listener.accepted + listener.incoming == old(listener.accepted) + old(listener.incoming)
    ensures forall a :: a in listener.incoming ==> a in old(listener.incoming)
    ensures more ==> |listener.incoming| < |old(listener.incoming)|
    ensures !more ==> listener.incoming == [] && conns' == conns
  {
    var r := listener.Accept();
    assert forall k :: 0 <= k < |conns| ==> conns[k].Whole();
    assert forall k :: 0 <= k < |conns| ==> listener.Gone(conns[k].conn);
    if r.None? {
      return false, conns;
    }
    more, conns' := true, conns + [r.value];
  }

  /** Serving a listener to its end: the connections Caddy gets are, in order, exactly those whose
      peek failed or whose name resolved to no route, each with everything its client sent still to
      be read; the rest were closed or proxied. */
  method ServeAll(observer: StreamObserver?, arrivals: seq<Arrival>)
    returns (conns: seq<ReplayConn>, listener: BifrostListener)
    requires Distinct(arrivals) && forall a :: a in arrivals ==> a.conn.pos == 0
    modifies observer, set a | a in arrivals :: a.conn`pos
    ensures fresh(listener) && listener.accepted == arrivals && listener.Accounted()
    ensures Wrap(conns, GoingBack(arrivals))
    ensures forall k :: 0 <= k < |conns| ==> conns[k].Whole()
  {
    listener := new BifrostListener(observer, arrivals);
    conns := [];
    var more := true;
    while more
      invariant fresh(listener) && listener.observer == observer && Served(listener, conns)
      invariant listener.accepted + listener.incoming == arrivals
      invariant forall a :: a in listener.incoming ==> a in arrivals
      invariant !more ==> listener.incoming == []
      decreases |listener.incoming|, more
    {
      more, conns := ServeNext(listener, conns);
    }
    assert listener.accepted == arrivals;
    ReturnedAreGoingBack(arrivals);
  }

  function Conns(arrivals: seq<Arrival>): seq<NetConn> {
    if arrivals == [] then [] else Conns(arrivals[..|arrivals| - 1]) + [arrivals[|arrivals| - 1].conn]
  }

  ghost predicate Balanced(logs: Logs, conns: seq<NetConn>) {
    && multiset(logs.returned) + multiset(logs.closed) + multiset(logs.proxied) == multiset(conns)
    && |logs.proxiedTo| == |logs.proxied|
  }

  lemma RecordBalances(logs: Logs, conns: seq<NetConn>, a: Arrival)
    requires Balanced(logs, conns)
    ensures Balanced(Record(logs, a), conns + [a.conn])
  {
  }

  /** Every accepted connection is returned, closed or proxied, and only one of these, once. */
  lemma {:induction false} EveryConnectionHasOneFate(arrivals: seq<Arrival>)
    ensures Balanced(LogsOf(arrivals), Conns(arrivals))
  {
    if arrivals != [] {
      var before := arrivals[..|arrivals| - 1];
      EveryConnectionHasOneFate(before);
      RecordBalances(LogsOf(before), Conns(before), arrivals[|arrivals| - 1]);
    }
  }

  /** A refusal: one rejection, without an endpoint, for a resolver's error or its blank answer. */
  predicate IsRefusal(o: Observation) {
    && o.eventType == StreamRejected && TrimSpace(o.endpointKey) == ""
    && (o.reason == REASON_EMPTY_ENDPOINT || (o.reason == REASON_RESOLVER_ERROR && o.observationKey == ""))
  }

  /** No stream is ever opened under a blank endpoint, and all the observer hears of connections
      that were not proxied is refusals, at most one for each that was closed. */
  lemma {:induction false} NothingBlankIsProxied(arrivals: seq<Arrival>)
    ensures var logs := LogsOf(arrivals);
            && (forall i :: 0 <= i < |logs.proxiedTo| ==> TrimSpace(logs.proxiedTo[i].endpointKey) != "")
            && (forall i :: 0 <= i < |logs.rejections| ==> IsRefusal(logs.rejections[i]))
            && |logs.rejections| <= |logs.closed|
  {
    if arrivals != [] {
      NothingBlankIsProxied(arrivals[..|arrivals| - 1]);
    }
  }

  // The streams of the proxied connections.

  /** What the core calls on a stream's lifecycle before ProxyStream returns, in lock order, and the
      reason of the error it returns, if it returns one. */
  datatype CoreBehaviour = CoreBehaviour(calls: seq<Call>, failure: Option<string>)

  /** Everything marked for one proxied connection: what the core caused, then the goroutine's tail. */
  function StreamMarks(r: Resolution, core: CoreBehaviour): seq<Observation> {
    Marks(true, r, core.calls + TailCalls(PhaseAfter(true, r, core.calls), true, core.failure))
  }

  /** This connection was accepted, and its resolver answered its name with this. */
  ghost predicate WasResolved(arrivals: seq<Arrival>, conn: NetConn, r: Resolution) {
    exists i :: 0 <= i < |arrivals| && arrivals[i].conn == conn && Peeked(arrivals[i]) && Answers(arrivals[i], r)
  }

  lemma {:induction false} ProxiedWereResolved(arrivals: seq<Arrival>)
    ensures var logs := LogsOf(arrivals);
            && |logs.proxied| == |logs.proxiedTo|
            && forall k :: 0 <= k < |logs.proxied| ==> WasResolved(arrivals, logs.proxied[k], logs.proxiedTo[k])
  {
    if arrivals != [] {
      var before, last := arrivals[..|arrivals| - 1], arrivals[|arrivals| - 1];
      ProxiedWereResolved(before);
      if DispositionOf(last).Proxy? {
        DispositionIff(last, DispositionOf(last).resolution);
      }
      var logs, earlier := LogsOf(arrivals), LogsOf(before);
      forall k | 0 <= k < |logs.proxied|
        ensures WasResolved(arrivals, logs.proxied[k], logs.proxiedTo[k])
      {
        if k < |earlier.proxied| {
          assert WasResolved(before, earlier.proxied[k], earlier.proxiedTo[k]);
        } else {
          assert arrivals[|arrivals| - 1].conn == logs.proxied[k];
        }
      }
    }
  }

  /** Over a whole run, whatever the core does: each proxied connection was resolved to a non-blank
      endpoint, everything marked for it carries the keys of that resolution, and its stream settles
      with one end if it opened, one rejection if it failed unopened, and nothing otherwise. */
  lemma ProxiedStreamsSettle(arrivals: seq<Arrival>, cores: seq<CoreBehaviour>)
    requires |cores| == |LogsOf(arrivals).proxied|
    requires forall k :: 0 <= k < |cores| ==> NoReject(cores[k].calls)
    ensures var logs := LogsOf(arrivals);
            && |logs.proxiedTo| == |cores|
            && forall k :: 0 <= k < |cores| ==> StreamSettles(arrivals, logs.proxied[k], logs.proxiedTo[k], cores[k])
  {
    var logs := LogsOf(arrivals);
    ProxiedWereResolved(arrivals);
    NothingBlankIsProxied(arrivals);
    forall k | 0 <= k < |cores|
      ensures StreamSettles(arrivals, logs.proxied[k], logs.proxiedTo[k], cores[k])
    {
      OneStreamSettles(logs.proxiedTo[k], cores[k]);
    }
  }

  ghost predicate StreamSettles(arrivals: seq<Arrival>, conn: NetConn, r: Resolution, core: CoreBehaviour) {
    && WasResolved(arrivals, conn, r) && TrimSpace(r.endpointKey) != ""
    && HasKeysAndSettles(r, core)
  }

  ghost predicate HasKeysAndSettles(r: Resolution, core: CoreBehaviour) {
    var h := StreamMarks(r, core);
    && (forall o :: o in h ==> WellFormed(r, o))
    && h == Marks(true, r, core.calls) + TailEvents(r, core.calls, core.failure)
    && (core.failure.Some? || Opened(core.calls) ==> IsSettled(h, Opened(core.calls)))
    && (core.failure.Some? && !Opened(core.calls) ==> h == [RejectEvent(r, core.failure.value)])
    && (core.failure.None? && !Opened(core.calls) ==> h == [])
  }

  lemma OneStreamSettles(r: Resolution, core: CoreBehaviour)
    requires NoReject(core.calls)
    ensures HasKeysAndSettles(r, core)
  {
    TailSettlesStream(r, core.calls, core.failure);
    MarkHistoryIsLegal(true, r, core.calls + TailCalls(PhaseAfter(true, r, core.calls), true, core.failure));
  }

  /** Static routes: a connection is refused only for want of a server, a match is proxied under a
      trimmed non-empty endpoint, and everything else goes back to Caddy. */
  lemma StaticRoutesNeverRefuse(routes: seq<SniRoute>, table: map<string, string>, a: Arrival)
    requires Acceptable(KeysOf(routes)) && IsTableOf(table, KeysOf(routes))
    requires a.server == Some(Static(table)) && a.end.error != OtherError
    ensures match Resolve(table, PeekedName(a.end))
            case None => DispositionOf(a) == ReturnToCaddy
            case Some(endpoint) =>
              DispositionOf(a) == Proxy(Resolution(endpoint, "")) && endpoint != "" && IsTrimmed(endpoint)
  {
    ResolveIsSafe(table, routes, PeekedName(a.end));
  }
}
