/** What a Caddyfile means: the configuration an accepted one parses to, read off its directives by
    last writes and order. */
module CaddyfileMeaning {
  import opened Wrappers
  import opened Caddyfile
  import opened CaddyfileGrammar
  import opened CaddyfileTheorems
  import S = ServerConfig
  import C = ClientConfig

  function LimitsMeaning(durations: DurationParser, block: seq<Segment>): S.EndpointLimits {
    S.EndpointLimits(
      IntOr(LastArg(block, MaxStreams), 0),
      IntOr(LastArg(block, MaxBandwidthBps), 0),
      DurationOr(durations, LastArg(block, StreamIdleTimeout), 0))
  }

  function GuardrailsMeaning(durations: DurationParser, block: seq<Segment>): S.Guardrails {
    S.Guardrails(
      IntOr(LastArg(block, MaxSessions), 0),
      IntOr(LastArg(block, MaxStreamsPerSession), 0),
      IntOr(LastArg(block, MaxBandwidthBpsPerSession), 0),
      DurationOr(durations, LastArg(block, MinStreamIdleTimeout), 0),
      DurationOr(durations, LastArg(block, MaxStreamIdleTimeout), 0),
      IntOr(LastArg(block, MaxHeaders), 0),
      IntOr(LastArg(block, MaxHeaderBytes), 0))
  }

  function TuningMeaning(durations: DurationParser, block: seq<Segment>): S.Tuning {
    S.Tuning(
      DurationOr(durations, LastArg(block, HandshakeTimeout), 0),
      IntOr(LastArg(block, StreamCopyBufferBytes), 0),
      DurationOr(durations, LastArg(block, TunnelKeepaliveInterval), 0),
      DurationOr(durations, LastArg(block, TunnelKeepaliveTimeout), 0))
  }

  function Label(s: Segment): string {
    if |s.args| == 1 then s.args[0] else ""
  }

  function EndpointMeaning(durations: DurationParser, s: Segment): S.Endpoint {
    var block := BlockOf(s);
    S.Endpoint(
      Label(s),
      TextOr(LastArg(block, Token), ""),
      TextOr(LastArg(block, Policy), ""),
      IntOr(LastArg(block, MaxParallel), 0),
      LimitsMeaning(durations, Inner(block, LimitsDirective)))
  }

  function EndpointMeanings(durations: DurationParser, segments: seq<Segment>): seq<S.Endpoint> {
    if segments == [] then []
    else [EndpointMeaning(durations, segments[0])] + EndpointMeanings(durations, segments[1..])
  }

  function ServerMeaning(durations: DurationParser, s: Segment): S.Fields {
    var block := BlockOf(s);
    S.Fields(
      TextOr(LastArg(block, Listen), ""),
      Label(s),
      EndpointMeanings(durations, EndpointSegments(block)),
      GuardrailsMeaning(durations, Inner(block, GuardrailsDirective)),
      TuningMeaning(durations, Inner(block, RuntimeDirective)))
  }

  function ClientMeaning(s: Segment): C.Fields {
    var block := BlockOf(s);
    var tls := Inner(block, TlsDirective);
    C.Fields(
      Label(s),
      TextOr(LastArg(block, Token), ""),
      TextOr(LastArg(block, Forward), ""),
      TextOr(LastArg(tls, CaFile), ""),
      TextOr(LastArg(tls, ServerName), ""),
      Mentions(tls, InsecureSkipVerify))
  }

  /** app holds the one runtime that s configures, each field normalised from what s means. */
  ghost predicate Means(durations: DurationParser, s: Segment, app: App) {
    match s.name
    case ServerDirective =>
      app.client.None? && app.server.Some? && S.IsNormalized(app.server.value, ServerMeaning(durations, s))
    case ClientDirective =>
      app.server.None? && app.client.Some? && C.IsNormalized(app.client.value, ClientMeaning(s))
    case _ => false
  }

  lemma EndpointMeans(durations: DurationParser, s: Segment)
    requires ParseEndpoint(durations, s).Ok?
    ensures ParseEndpoint(durations, s) == Ok(EndpointMeaning(durations, s))
  {
    EndpointMerges(durations, S.Endpoint(s.args[0], "", "", 0, S.ZERO_LIMITS), BlockOf(s));
    LimitsLastWrite(durations, S.ZERO_LIMITS, Inner(BlockOf(s), LimitsDirective));
  }

  lemma {:induction false} EndpointsMean(durations: DurationParser, es: seq<S.Endpoint>, segments: seq<Segment>)
    requires AreParsed(durations, es, segments)
    ensures es == EndpointMeanings(durations, segments)
    decreases segments
  {
    if segments != [] {
      EndpointMeans(durations, segments[0]);
      EndpointsMean(durations, es[1..], segments[1..]);
      assert es == [es[0]] + es[1..];
    }
  }

  lemma ServerMeans(durations: DurationParser, s: Segment)
    requires |s.args| == 1
    requires Fold(ServerStep(durations), S.Fields("", s.args[0], [], S.ZERO_GUARDRAILS, S.ZERO_TUNING), BlockOf(s)).Ok?
    ensures Fold(ServerStep(durations), S.Fields("", s.args[0], [], S.ZERO_GUARDRAILS, S.ZERO_TUNING), BlockOf(s)) ==
            Ok(ServerMeaning(durations, s))
  {
    var start, block := S.Fields("", s.args[0], [], S.ZERO_GUARDRAILS, S.ZERO_TUNING), BlockOf(s);
    var r := Fold(ServerStep(durations), start, block).value;
    ServerMerges(durations, start, block);
    GuardrailsLastWrite(durations, S.ZERO_GUARDRAILS, Inner(block, GuardrailsDirective));
    TuningLastWrite(durations, S.ZERO_TUNING, Inner(block, RuntimeDirective));
    EndpointsKeepOrder(durations, start, block);
    assert r.endpoints[0..] == r.endpoints;
    EndpointsMean(durations, r.endpoints, EndpointSegments(block));
  }

  lemma ClientMeans(s: Segment)
    requires |s.args| == 1 && Fold(ClientStep(), C.Fields(s.args[0], "", "", "", "", false), BlockOf(s)).Ok?
    ensures Fold(ClientStep(), C.Fields(s.args[0], "", "", "", "", false), BlockOf(s)) == Ok(ClientMeaning(s))
  {
    var start := C.Fields(s.args[0], "", "", "", "", false);
    ClientMerges(start, BlockOf(s));
    TlsLastWrite(start, Inner(BlockOf(s), TlsDirective));
  }

  /** Every server or client whose directives are allowed parses to its meaning. */
  lemma RuntimeMeans(durations: DurationParser, s: Segment)
    requires RuntimeAllowed(durations, s)
    ensures Runtime(durations, s).Ok? && Means(durations, s, Runtime(durations, s).value)
  {
    RuntimeOkIff(durations, s);
    if s.name == ServerDirective {
      ServerMeans(durations, s);
      S.NormalizedIff(S.Normalized(ServerMeaning(durations, s)), ServerMeaning(durations, s));
    } else {
      ClientMeans(s);
      C.NormalizedIff(C.Normalized(ClientMeaning(s)), ClientMeaning(s));
    }
  }

  /** A segment means one configuration only. */
  lemma MeaningIsOne(durations: DurationParser, s: Segment, app1: App, app2: App)
    requires Means(durations, s, app1) && Means(durations, s, app2)
    ensures app1 == app2
  {
    match s.name
    case ServerDirective =>
      S.NormalizedIff(app1.server.value, ServerMeaning(durations, s));
      S.NormalizedIff(app2.server.value, ServerMeaning(durations, s));
    case ClientDirective =>
      C.NormalizedIff(app1.client.value, ClientMeaning(s));
      C.NormalizedIff(app2.client.value, ClientMeaning(s));
  }

  /** Parsing succeeds exactly when no top-level directive has arguments and at most one runtime is
      configured in all of them together, with every directive inside it allowed where it stands.
      The result is the meaning of that runtime, never both kinds. */
  lemma ParseAppIff(durations: DurationParser, tops: seq<Segment>)
    ensures var r, all := Fold(TopStep(durations), EMPTY_APP, tops), Flatten(tops);
            && (r.Ok? <==>
                  && (forall i :: 0 <= i < |tops| ==> tops[i].args == [])
                  && |all| <= 1
                  && (all != [] ==> RuntimeAllowed(durations, all[0])))
            && (r.Ok? ==> if all == [] then r.value == App(None, None) else Means(durations, all[0], r.value))
            && (r.Ok? ==> r.value.server.None? || r.value.client.None?)
  {
    if Fold(TopStep(durations), EMPTY_APP, tops).Ok? {
      TopsHaveNoArgs(durations, EMPTY_APP, tops);
    }
    if forall i :: 0 <= i < |tops| ==> tops[i].args == [] {
      TopsAreFlattened(durations, EMPTY_APP, tops);
      FoldApp(durations, EMPTY_APP, Flatten(tops));
      if Flatten(tops) != [] {
        RuntimeOkIff(durations, Flatten(tops)[0]);
        if RuntimeAllowed(durations, Flatten(tops)[0]) {
          RuntimeMeans(durations, Flatten(tops)[0]);
        }
      }
    }
  }
}
