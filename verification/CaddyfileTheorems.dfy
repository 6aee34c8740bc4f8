/** What parsing a Caddyfile gives: each scalar is the last one written, through repeated and
    nested blocks, and every configuration comes back from its own rendering. */
module CaddyfileTheorems {
  import opened Wrappers
  import opened Decimal
  import opened Caddyfile
  import S = ServerConfig
  import C = ClientConfig

  /** The argument of the last directive of this name. */
  function LastArg(block: seq<Segment>, name: Directive): Option<string> {
    if block == [] then None
    else
      match LastArg(block[1..], name)
      case Some(arg) => Some(arg)
      case None => Arg(block[0], name)
  }

  function Arg(s: Segment, name: Directive): Option<string> {
    if s.name == name && |s.args| == 1 then Some(s.args[0]) else None
  }

  function TextOr(arg: Option<string>, otherwise: string): string {
    match arg case Some(text) => text case None => otherwise
  }

  function IntOr(arg: Option<string>, otherwise: int): int {
    match arg
    case None => otherwise
    case Some(text) => match ParseInt(text) case Some(n) => n case None => 0
  }

  function DurationOr(durations: DurationParser, arg: Option<string>, otherwise: int): int {
    match arg
    case None => otherwise
    case Some(text) => match durations(text) case Some(n) => n case None => 0
  }

  /** Limits: last write wins, starting from what earlier blocks left. */
  lemma {:induction false} LimitsLastWrite(durations: DurationParser, c: S.EndpointLimits, block: seq<Segment>)
    requires Fold(LimitsStep(durations), c, block).Ok?
    ensures var r := Fold(LimitsStep(durations), c, block).value;
            && r.maxStreams == IntOr(LastArg(block, MaxStreams), c.maxStreams)
            && r.maxBandwidthBps == IntOr(LastArg(block, MaxBandwidthBps), c.maxBandwidthBps)
            && r.streamIdleTimeout == DurationOr(durations, LastArg(block, StreamIdleTimeout), c.streamIdleTimeout)
    decreases block
  {
    if block != [] {
      LimitsLastWrite(durations, ApplyLimits(durations, c, block[0]).value, block[1..]);
    }
  }

  lemma GuardrailsStepWrites(durations: DurationParser, c: S.Guardrails, s: Segment)
    requires ApplyGuardrails(durations, c, s).Ok?
    ensures var r := ApplyGuardrails(durations, c, s).value;
            && r.maxSessions == IntOr(Arg(s, MaxSessions), c.maxSessions)
            && r.maxStreamsPerSession == IntOr(Arg(s, MaxStreamsPerSession), c.maxStreamsPerSession)
            && r.maxBandwidthBpsPerSession == IntOr(Arg(s, MaxBandwidthBpsPerSession), c.maxBandwidthBpsPerSession)
            && r.minStreamIdleTimeout == DurationOr(durations, Arg(s, MinStreamIdleTimeout), c.minStreamIdleTimeout)
            && r.maxStreamIdleTimeout == DurationOr(durations, Arg(s, MaxStreamIdleTimeout), c.maxStreamIdleTimeout)
            && r.maxHeaders == IntOr(Arg(s, MaxHeaders), c.maxHeaders)
            && r.maxHeaderBytes == IntOr(Arg(s, MaxHeaderBytes), c.maxHeaderBytes)
  {
  }

  /** Guardrails: last write wins. */
  lemma {:induction false} GuardrailsLastWrite(durations: DurationParser, c: S.Guardrails, block: seq<Segment>)
    requires Fold(GuardrailsStep(durations), c, block).Ok?
    ensures var r := Fold(GuardrailsStep(durations), c, block).value;
            && r.maxSessions == IntOr(LastArg(block, MaxSessions), c.maxSessions)
            && r.maxStreamsPerSession == IntOr(LastArg(block, MaxStreamsPerSession), c.maxStreamsPerSession)
            && r.maxBandwidthBpsPerSession ==
                 IntOr(LastArg(block, MaxBandwidthBpsPerSession), c.maxBandwidthBpsPerSession)
            && r.minStreamIdleTimeout ==
                 DurationOr(durations, LastArg(block, MinStreamIdleTimeout), c.minStreamIdleTimeout)
            && r.maxStreamIdleTimeout ==
                 DurationOr(durations, LastArg(block, MaxStreamIdleTimeout), c.maxStreamIdleTimeout)
            && r.maxHeaders == IntOr(LastArg(block, MaxHeaders), c.maxHeaders)
            && r.maxHeaderBytes == IntOr(LastArg(block, MaxHeaderBytes), c.maxHeaderBytes)
    decreases block
  {
    if block != [] {
      GuardrailsStepWrites(durations, c, block[0]);
      GuardrailsLastWrite(durations, ApplyGuardrails(durations, c, block[0]).value, block[1..]);
    }
  }

  lemma TuningStepWrites(durations: DurationParser, c: S.Tuning, s: Segment)
    requires ApplyTuning(durations, c, s).Ok?
    ensures var r := ApplyTuning(durations, c, s).value;
            && r.handshakeTimeout == DurationOr(durations, Arg(s, HandshakeTimeout), c.handshakeTimeout)
            && r.streamCopyBufferBytes == IntOr(Arg(s, StreamCopyBufferBytes), c.streamCopyBufferBytes)
            && r.tunnelKeepAliveInterval ==
                 DurationOr(durations, Arg(s, TunnelKeepaliveInterval), c.tunnelKeepAliveInterval)
            && r.tunnelKeepAliveTimeout ==
                 DurationOr(durations, Arg(s, TunnelKeepaliveTimeout), c.tunnelKeepAliveTimeout)
  {
  }

  /** Runtime tuning: last write wins. */
  lemma {:induction false} TuningLastWrite(durations: DurationParser, c: S.Tuning, block: seq<Segment>)
    requires Fold(TuningStep(durations), c, block).Ok?
    ensures var r := Fold(TuningStep(durations), c, block).value;
            && r.handshakeTimeout == DurationOr(durations, LastArg(block, HandshakeTimeout), c.handshakeTimeout)
            && r.streamCopyBufferBytes == IntOr(LastArg(block, StreamCopyBufferBytes), c.streamCopyBufferBytes)
            && r.tunnelKeepAliveInterval ==
                 DurationOr(durations, LastArg(block, TunnelKeepaliveInterval), c.tunnelKeepAliveInterval)
            && r.tunnelKeepAliveTimeout ==
                 DurationOr(durations, LastArg(block, TunnelKeepaliveTimeout), c.tunnelKeepAliveTimeout)
    decreases block
  {
    if block != [] {
      TuningStepWrites(durations, c, block[0]);
      TuningLastWrite(durations, ApplyTuning(durations, c, block[0]).value, block[1..]);
    }
  }

  // Repeated blocks.

  lemma {:induction false} FoldConcat<C>(step: Parser<C>, c: C, a: seq<Segment>, b: seq<Segment>)
    ensures Fold(step, c, a + b) == match Fold(step, c, a) case Err(e) => Err(e) case Ok(mid) => Fold(step, mid, b)
    decreases a
  {
    if a == [] {
      assert a + b == b;
    } else {
      assert (a + b)[1..] == a[1..] + b;
      if step(c, a[0]).Ok? {
        FoldConcat(step, step(c, a[0]).value, a[1..], b);
      }
    }
  }

  /** The directives inside all the blocks of this name, one after another. */
  function Inner(block: seq<Segment>, name: Directive): seq<Segment> {
    if block == [] then []
    else (if block[0].name == name then BlockOf(block[0]) else []) + Inner(block[1..], name)
  }

  /** An endpoint keeps its key; its scalars are the last ones written, and its limits blocks act
      as one block. */
  lemma {:induction false} EndpointMerges(durations: DurationParser, e: S.Endpoint, block: seq<Segment>)
    requires Fold(EndpointStep(durations), e, block).Ok?
    ensures var r := Fold(EndpointStep(durations), e, block).value;
            && r.key == e.key
            && r.token == TextOr(LastArg(block, Token), e.token)
            && r.policy == TextOr(LastArg(block, Policy), e.policy)
            && r.maxParallel == IntOr(LastArg(block, MaxParallel), e.maxParallel)
            && Fold(LimitsStep(durations), e.limits, Inner(block, LimitsDirective)) == Ok(r.limits)
    decreases block
  {
    if block != [] {
      var next := ApplyEndpoint(durations, e, block[0]).value;
      EndpointMerges(durations, next, block[1..]);
      if block[0].name == LimitsDirective {
        FoldConcat(LimitsStep(durations), e.limits, BlockOf(block[0]), Inner(block[1..], LimitsDirective));
      } else {
        assert Inner(block, LimitsDirective) == Inner(block[1..], LimitsDirective);
      }
    }
  }

  /** The endpoint directives of a block, in order. */
  function EndpointSegments(block: seq<Segment>): seq<Segment> {
    if block == [] then []
    else (if block[0].name == EndpointDirective then [block[0]] else []) + EndpointSegments(block[1..])
  }

  /** These are the endpoints of these directives, one for one. */
  ghost predicate AreParsed(durations: DurationParser, endpoints: seq<S.Endpoint>, segments: seq<Segment>) {
    if segments == [] then endpoints == []
    else
      && endpoints != [] && segments[0].name == EndpointDirective
      && ParseEndpoint(durations, segments[0]) == Ok(endpoints[0])
      && AreParsed(durations, endpoints[1..], segments[1..])
  }

  /** A server keeps its subject; its listen address is the last one written, and its guardrails
      blocks act as one block, as do its runtime blocks. */
  lemma {:induction false} ServerMerges(durations: DurationParser, f: S.Fields, block: seq<Segment>)
    requires Fold(ServerStep(durations), f, block).Ok?
    ensures var r := Fold(ServerStep(durations), f, block).value;
            && r.tlsSubject == f.tlsSubject
            && r.listen == TextOr(LastArg(block, Listen), f.listen)
            && Fold(GuardrailsStep(durations), f.guardrails, Inner(block, GuardrailsDirective)) == Ok(r.guardrails)
            && Fold(TuningStep(durations), f.tuning, Inner(block, RuntimeDirective)) == Ok(r.tuning)
    decreases block
  {
    if block != [] {
      ServerStepWrites(durations, f, block[0]);
      ServerMerges(durations, ApplyServer(durations, f, block[0]).value, block[1..]);
      BlocksMerge(GuardrailsStep(durations), f.guardrails, block, GuardrailsDirective);
      BlocksMerge(TuningStep(durations), f.tuning, block, RuntimeDirective);
    }
  }

  lemma ServerStepWrites(durations: DurationParser, f: S.Fields, s: Segment)
    requires ApplyServer(durations, f, s).Ok?
    ensures var r := ApplyServer(durations, f, s).value;
            && r.tlsSubject == f.tlsSubject && r.listen == TextOr(Arg(s, Listen), f.listen)
            && (if s.name == GuardrailsDirective
                then Fold(GuardrailsStep(durations), f.guardrails, BlockOf(s)) == Ok(r.guardrails)
                else r.guardrails == f.guardrails)
            && (if s.name == RuntimeDirective
                then Fold(TuningStep(durations), f.tuning, BlockOf(s)) == Ok(r.tuning)
                else r.tuning == f.tuning)
  {
  }

  /** A server's endpoints are those of its endpoint directives, in the order they are written. */
  lemma {:induction false} EndpointsKeepOrder(durations: DurationParser, f: S.Fields, block: seq<Segment>)
    requires Fold(ServerStep(durations), f, block).Ok?
    ensures var r := Fold(ServerStep(durations), f, block).value;
            && f.endpoints <= r.endpoints
            && AreParsed(durations, r.endpoints[|f.endpoints|..], EndpointSegments(block))
    decreases block
  {
    if block != [] {
      var next := ApplyServer(durations, f, block[0]).value;
      EndpointsKeepOrder(durations, next, block[1..]);
      StepEndpoints(durations, f, block[0]);
      var more := Fold(ServerStep(durations), f, block).value.endpoints[|f.endpoints|..];
      if block[0].name == EndpointDirective {
        assert more == [more[0]] + more[1..];
        OneMoreParsed(durations, more[0], block[0], more[1..], EndpointSegments(block[1..]));
      } else {
        assert EndpointSegments(block) == EndpointSegments(block[1..]);
      }
    }
  }

  lemma StepEndpoints(durations: DurationParser, f: S.Fields, s: Segment)
    requires ApplyServer(durations, f, s).Ok?
    ensures var r := ApplyServer(durations, f, s).value;
            if s.name == EndpointDirective
            then ParseEndpoint(durations, s).Ok? && r.endpoints == f.endpoints + [ParseEndpoint(durations, s).value]
            else r.endpoints == f.endpoints
  {
  }

  lemma OneMoreParsed(durations: DurationParser, e: S.Endpoint, s: Segment, es: seq<S.Endpoint>, segments: seq<Segment>)
    requires s.name == EndpointDirective && ParseEndpoint(durations, s) == Ok(e) && AreParsed(durations, es, segments)
    ensures AreParsed(durations, [e] + es, [s] + segments)
  {
    assert ([e] + es)[1..] == es && ([s] + segments)[1..] == segments;
  }

  lemma BlocksMerge<C>(step: Parser<C>, c: C, block: seq<Segment>, name: Directive)
    requires block != []
    ensures Fold(step, c, Inner(block, name)) ==
            if block[0].name == name
            then
              match Fold(step, c, BlockOf(block[0]))
              case Err(e) => Err(e)
              case Ok(mid) => Fold(step, mid, Inner(block[1..], name))
            else Fold(step, c, Inner(block[1..], name))
  {
    if block[0].name == name {
      FoldConcat(step, c, BlockOf(block[0]), Inner(block[1..], name));
    } else {
      assert Inner(block, name) == Inner(block[1..], name);
    }
  }

  predicate Mentions(block: seq<Segment>, name: Directive) {
    exists i | 0 <= i < |block| :: block[i].name == name
  }

  lemma {:induction false} TlsLastWrite(c: C.Fields, block: seq<Segment>)
    requires Fold(TlsStep(), c, block).Ok?
    ensures var r := Fold(TlsStep(), c, block).value;
            && r.tlsCaFile == TextOr(LastArg(block, CaFile), c.tlsCaFile)
            && r.tlsServerName == TextOr(LastArg(block, ServerName), c.tlsServerName)
            && (r.tlsInsecureSkipVerify <==> Mentions(block, InsecureSkipVerify) || c.tlsInsecureSkipVerify)
            && r.connect == c.connect && r.token == c.token && r.forward == c.forward
    decreases block
  {
    if block != [] {
      TlsLastWrite(ApplyTls(c, block[0]).value, block[1..]);
      MentionsStep(block, InsecureSkipVerify);
    }
  }

  lemma MentionsStep(block: seq<Segment>, name: Directive)
    requires block != []
    ensures Mentions(block, name) <==> block[0].name == name || Mentions(block[1..], name)
  {
    var rest := block[1..];
    if i :| 0 <= i < |rest| && rest[i].name == name {
      assert block[i + 1].name == name;
    }
    if i :| 0 <= i < |block| && block[i].name == name {
      assert i > 0 ==> rest[i - 1].name == name;
    }
  }

  lemma {:induction false} TlsIgnoresOthers(c: C.Fields, d: C.Fields, block: seq<Segment>)
    requires Fold(TlsStep(), c, block).Ok?
    requires d.tlsCaFile == c.tlsCaFile && d.tlsServerName == c.tlsServerName
             && d.tlsInsecureSkipVerify == c.tlsInsecureSkipVerify
    ensures Fold(TlsStep(), d, block) ==
            Ok(Fold(TlsStep(), c, block).value.(connect := d.connect, token := d.token, forward := d.forward))
    decreases block
  {
    if block != [] {
      TlsIgnoresOthers(ApplyTls(c, block[0]).value, ApplyTls(d, block[0]).value, block[1..]);
    }
  }

  /** A client keeps its address; token and forward are the last ones written, and its tls blocks
      act as one block. */
  lemma {:induction false} ClientMerges(c: C.Fields, block: seq<Segment>)
    requires Fold(ClientStep(), c, block).Ok?
    ensures var r := Fold(ClientStep(), c, block).value;
            && r.connect == c.connect
            && r.token == TextOr(LastArg(block, Token), c.token)
            && r.forward == TextOr(LastArg(block, Forward), c.forward)
            && Fold(TlsStep(), c, Inner(block, TlsDirective)) == Ok(r.(token := c.token, forward := c.forward))
    decreases block
  {
    if block != [] {
      var next := ApplyClient(c, block[0]).value;
      ClientMerges(next, block[1..]);
      BlocksMerge(TlsStep(), c, block, TlsDirective);
      if block[0].name == TlsDirective {
        TlsLastWrite(c, BlockOf(block[0]));
      } else {
        TlsIgnoresOthers(next, c, Inner(block[1..], TlsDirective));
      }
    }
  }

  // The app.

  /** The directives of all the top-level blocks. */
  function Flatten(tops: seq<Segment>): seq<Segment> {
    if tops == [] then [] else BlockOf(tops[0]) + Flatten(tops[1..])
  }

  function Runtime(durations: DurationParser, s: Segment): Result<App, ParseError> {
    ApplyApp(durations, EMPTY_APP, s)
  }

  lemma FoldApp(durations: DurationParser, app: App, segments: seq<Segment>)
    ensures var r := Fold(AppStep(durations), app, segments);
            && (segments == [] ==> r == Ok(app))
            && (|segments| == 1 && app == EMPTY_APP ==> r == Runtime(durations, segments[0]))
            && (r.Ok? && segments != [] ==> |segments| == 1 && app == EMPTY_APP)
  {
    if segments != [] && ApplyApp(durations, app, segments[0]).Ok? {
      var next := ApplyApp(durations, app, segments[0]).value;
      assert next != EMPTY_APP;
      assert |segments| > 1 ==> ApplyApp(durations, next, segments[1]).Err?;
    }
  }

  lemma {:induction false} TopsAreFlattened(durations: DurationParser, app: App, tops: seq<Segment>)
    requires forall i :: 0 <= i < |tops| ==> tops[i].args == []
    ensures Fold(TopStep(durations), app, tops) == Fold(AppStep(durations), app, Flatten(tops))
    decreases tops
  {
    if tops != [] {
      FoldConcat(AppStep(durations), app, BlockOf(tops[0]), Flatten(tops[1..]));
      match Fold(AppStep(durations), app, BlockOf(tops[0]))
      case Err(_) =>
      case Ok(next) => TopsAreFlattened(durations, next, tops[1..]);
    }
  }

  lemma {:induction false} TopsHaveNoArgs(durations: DurationParser, app: App, tops: seq<Segment>)
    requires Fold(TopStep(durations), app, tops).Ok?
    ensures forall i :: 0 <= i < |tops| ==> tops[i].args == []
    decreases tops
  {
    if tops != [] {
      TopsHaveNoArgs(durations, Fold(AppStep(durations), app, BlockOf(tops[0])).value, tops[1..]);
      assert forall i :: 1 <= i < |tops| ==> tops[i] == tops[1..][i - 1];
    }
  }

  // Rendering.

  /** Formatting and parsing durations round-trips; time.Duration.String is not modelled. */
  ghost predicate RoundTrips(durations: DurationParser, format: int -> string) {
    forall d :: InRange(d) ==> durations(format(d)) == Some(d)
  }

  function Leaf(name: Directive, text: string): Segment {
    Segment(name, [text], None)
  }

  function Block(name: Directive, segments: seq<Segment>): Segment {
    Segment(name, [], Some(segments))
  }

  function RenderLimits(format: int -> string, l: S.EndpointLimits): seq<Segment> {
    [Leaf(MaxStreams, FormatInt(l.maxStreams)),
     Leaf(MaxBandwidthBps, FormatInt(l.maxBandwidthBps)),
     Leaf(StreamIdleTimeout, format(l.streamIdleTimeout))]
  }

  function RenderSessionGuardrails(g: S.Guardrails): seq<Segment> {
    [Leaf(MaxSessions, FormatInt(g.maxSessions)),
     Leaf(MaxStreamsPerSession, FormatInt(g.maxStreamsPerSession)),
     Leaf(MaxBandwidthBpsPerSession, FormatInt(g.maxBandwidthBpsPerSession))]
  }

  function RenderTimeoutGuardrails(format: int -> string, g: S.Guardrails): seq<Segment> {
    [Leaf(MinStreamIdleTimeout, format(g.minStreamIdleTimeout)),
     Leaf(MaxStreamIdleTimeout, format(g.maxStreamIdleTimeout))]
  }

  function RenderHeaderGuardrails(g: S.Guardrails): seq<Segment> {
    [Leaf(MaxHeaders, FormatInt(g.maxHeaders)),
     Leaf(MaxHeaderBytes, FormatInt(g.maxHeaderBytes))]
  }

  function RenderGuardrails(format: int -> string, g: S.Guardrails): seq<Segment> {
    RenderSessionGuardrails(g) + RenderTimeoutGuardrails(format, g) + RenderHeaderGuardrails(g)
  }

  function RenderTuning(format: int -> string, t: S.Tuning): seq<Segment> {
    [Leaf(HandshakeTimeout, format(t.handshakeTimeout)),
     Leaf(StreamCopyBufferBytes, FormatInt(t.streamCopyBufferBytes)),
     Leaf(TunnelKeepaliveInterval, format(t.tunnelKeepAliveInterval)),
     Leaf(TunnelKeepaliveTimeout, format(t.tunnelKeepAliveTimeout))]
  }

  function EndpointWith(e: S.Endpoint, limits: seq<Segment>): Segment {
    Segment(EndpointDirective, [e.key],
            Some([Leaf(Token, e.token), Leaf(Policy, e.policy), Leaf(MaxParallel, FormatInt(e.maxParallel)),
                  Block(LimitsDirective, limits)]))
  }

  function RenderEndpoint(format: int -> string, e: S.Endpoint): Segment {
    EndpointWith(e, RenderLimits(format, e.limits))
  }

  function RenderEndpoints(format: int -> string, es: seq<S.Endpoint>): seq<Segment> {
    seq(|es|, i requires 0 <= i < |es| => RenderEndpoint(format, es[i]))
  }

  function ScalarsWith(f: S.Fields, guardrails: seq<Segment>, tuning: seq<Segment>): seq<Segment> {
    [Leaf(Listen, f.listen), Block(GuardrailsDirective, guardrails), Block(RuntimeDirective, tuning)]
  }

  function RenderServerScalars(format: int -> string, f: S.Fields): seq<Segment> {
    ScalarsWith(f, RenderGuardrails(format, f.guardrails), RenderTuning(format, f.tuning))
  }

  function RenderServer(format: int -> string, f: S.Fields): Segment {
    Segment(ServerDirective, [f.tlsSubject],
            Some(RenderServerScalars(format, f) + RenderEndpoints(format, f.endpoints)))
  }

  function RenderTls(c: C.Fields): seq<Segment> {
    [Leaf(CaFile, c.tlsCaFile), Leaf(ServerName, c.tlsServerName)]
    + (if c.tlsInsecureSkipVerify then [Segment(InsecureSkipVerify, [], None)] else [])
  }

  function RenderClient(c: C.Fields): Segment {
    Segment(ClientDirective, [c.connect],
            Some([Leaf(Token, c.token), Leaf(Forward, c.forward), Block(TlsDirective, RenderTls(c))]))
  }

  predicate LimitsInRange(l: S.EndpointLimits) {
    InRange(l.maxStreams) && InRange(l.maxBandwidthBps) && InRange(l.streamIdleTimeout)
  }

  predicate GuardrailsInRange(g: S.Guardrails) {
    && InRange(g.maxSessions) && InRange(g.maxStreamsPerSession) && InRange(g.maxBandwidthBpsPerSession)
    && InRange(g.minStreamIdleTimeout) && InRange(g.maxStreamIdleTimeout)
    && InRange(g.maxHeaders) && InRange(g.maxHeaderBytes)
  }

  predicate TuningInRange(t: S.Tuning) {
    && InRange(t.handshakeTimeout) && InRange(t.streamCopyBufferBytes)
    && InRange(t.tunnelKeepAliveInterval) && InRange(t.tunnelKeepAliveTimeout)
  }

  /** The source's 64-bit integers. */
  predicate ServerInRange(f: S.Fields) {
    && GuardrailsInRange(f.guardrails) && TuningInRange(f.tuning)
    && forall i | 0 <= i < |f.endpoints| :: InRange(f.endpoints[i].maxParallel) && LimitsInRange(f.endpoints[i].limits)
  }

  /** A fold that passes through these states. */
  ghost predicate Passes<C>(step: Parser<C>, states: seq<C>, segments: seq<Segment>) {
    && |states| == |segments| + 1
    && forall i :: 0 <= i < |segments| ==> step(states[i], segments[i]) == Ok(states[i + 1])
  }

  lemma {:induction false} FoldPasses<C>(step: Parser<C>, states: seq<C>, segments: seq<Segment>)
    requires Passes(step, states, segments)
    ensures Fold(step, states[0], segments) == Ok(states[|segments|])
    decreases segments
  {
    if segments != [] {
      FoldPasses(step, states[1..], segments[1..]);
    }
  }

  lemma IntLeaf(name: Directive, n: int)
    requires InRange(n)
    ensures SingleInt(Leaf(name, FormatInt(n))) == Ok(n)
  {
    ParseFormatted(n);
  }

  lemma FoldThree<C>(step: Parser<C>, c0: C, c1: C, c2: C, c3: C, s0: Segment, s1: Segment, s2: Segment)
    requires step(c0, s0) == Ok(c1) && step(c1, s1) == Ok(c2) && step(c2, s2) == Ok(c3)
    ensures Fold(step, c0, [s0, s1, s2]) == Ok(c3)
  {
    FoldPasses(step, [c0, c1, c2, c3], [s0, s1, s2]);
  }

  lemma FoldFour<C>(step: Parser<C>, c0: C, c1: C, c2: C, c3: C, c4: C,
                    s0: Segment, s1: Segment, s2: Segment, s3: Segment)
    requires step(c0, s0) == Ok(c1) && step(c1, s1) == Ok(c2) && step(c2, s2) == Ok(c3) && step(c3, s3) == Ok(c4)
    ensures Fold(step, c0, [s0, s1, s2, s3]) == Ok(c4)
  {
    FoldPasses(step, [c0, c1, c2, c3, c4], [s0, s1, s2, s3]);
  }

  lemma LimitSegments(durations: DurationParser, l: S.EndpointLimits, s0: Segment, s1: Segment, s2: Segment,
                      r: S.EndpointLimits)
    requires s0.name == MaxStreams && SingleInt(s0) == Ok(r.maxStreams)
    requires s1.name == MaxBandwidthBps && SingleInt(s1) == Ok(r.maxBandwidthBps)
    requires s2.name == StreamIdleTimeout && SingleDuration(durations, s2) == Ok(r.streamIdleTimeout)
    ensures Fold(LimitsStep(durations), l, [s0, s1, s2]) == Ok(r)
  {
    var l1 := l.(maxStreams := r.maxStreams);
    var l2 := l1.(maxBandwidthBps := r.maxBandwidthBps);
    FoldThree(LimitsStep(durations), l, l1, l2, r, s0, s1, s2);
  }

  lemma LimitsRoundTrip(durations: DurationParser, format: int -> string, l0: S.EndpointLimits, l: S.EndpointLimits)
    requires RoundTrips(durations, format) && LimitsInRange(l)
    ensures Fold(LimitsStep(durations), l0, RenderLimits(format, l)) == Ok(l)
  {
    IntLeaf(MaxStreams, l.maxStreams);
    IntLeaf(MaxBandwidthBps, l.maxBandwidthBps);
    var all := RenderLimits(format, l);
    LimitSegments(durations, l0, all[0], all[1], all[2], l);
  }

  lemma GuardrailSegment(durations: DurationParser, g: S.Guardrails, s: Segment, n: int)
    requires SingleInt(s) == Ok(n)
    ensures s.name == MaxSessions ==> ApplyGuardrails(durations, g, s) == Ok(g.(maxSessions := n))
    ensures s.name == MaxStreamsPerSession ==> ApplyGuardrails(durations, g, s) == Ok(g.(maxStreamsPerSession := n))
    ensures s.name == MaxBandwidthBpsPerSession ==>
            ApplyGuardrails(durations, g, s) == Ok(g.(maxBandwidthBpsPerSession := n))
    ensures s.name == MaxHeaders ==> ApplyGuardrails(durations, g, s) == Ok(g.(maxHeaders := n))
    ensures s.name == MaxHeaderBytes ==> ApplyGuardrails(durations, g, s) == Ok(g.(maxHeaderBytes := n))
  {
  }

  lemma SessionSegments(durations: DurationParser, g: S.Guardrails,
                        s0: Segment, s1: Segment, s2: Segment, a: int, b: int, c: int)
    requires s0.name == MaxSessions && SingleInt(s0) == Ok(a)
    requires s1.name == MaxStreamsPerSession && SingleInt(s1) == Ok(b)
    requires s2.name == MaxBandwidthBpsPerSession && SingleInt(s2) == Ok(c)
    ensures Fold(GuardrailsStep(durations), g, [s0, s1, s2]) ==
            Ok(g.(maxSessions := a, maxStreamsPerSession := b, maxBandwidthBpsPerSession := c))
  {
    var g1 := g.(maxSessions := a);
    var g2 := g1.(maxStreamsPerSession := b);
    GuardrailSegment(durations, g, s0, a);
    GuardrailSegment(durations, g1, s1, b);
    GuardrailSegment(durations, g2, s2, c);
    FoldThree(GuardrailsStep(durations), g, g1, g2, g2.(maxBandwidthBpsPerSession := c), s0, s1, s2);
  }

  lemma HeaderSegments(durations: DurationParser, g: S.Guardrails, s0: Segment, s1: Segment, a: int, b: int)
    requires s0.name == MaxHeaders && SingleInt(s0) == Ok(a)
    requires s1.name == MaxHeaderBytes && SingleInt(s1) == Ok(b)
    ensures Fold(GuardrailsStep(durations), g, [s0, s1]) == Ok(g.(maxHeaders := a, maxHeaderBytes := b))
  {
    var g1 := g.(maxHeaders := a);
    GuardrailSegment(durations, g, s0, a);
    GuardrailSegment(durations, g1, s1, b);
    FoldPasses(GuardrailsStep(durations), [g, g1, g1.(maxHeaderBytes := b)], [s0, s1]);
  }

  lemma SessionGuardrailsRoundTrip(durations: DurationParser, g0: S.Guardrails, g: S.Guardrails)
    requires GuardrailsInRange(g)
    ensures Fold(GuardrailsStep(durations), g0, RenderSessionGuardrails(g)) ==
            Ok(g0.(maxSessions := g.maxSessions, maxStreamsPerSession := g.maxStreamsPerSession,
                   maxBandwidthBpsPerSession := g.maxBandwidthBpsPerSession))
  {
    IntLeaf(MaxSessions, g.maxSessions);
    IntLeaf(MaxStreamsPerSession, g.maxStreamsPerSession);
    IntLeaf(MaxBandwidthBpsPerSession, g.maxBandwidthBpsPerSession);
    var all := RenderSessionGuardrails(g);
    SessionSegments(durations, g0, all[0], all[1], all[2],
                    g.maxSessions, g.maxStreamsPerSession, g.maxBandwidthBpsPerSession);
  }

  lemma TimeoutGuardrailsRoundTrip(durations: DurationParser, format: int -> string, g0: S.Guardrails, g: S.Guardrails)
    requires RoundTrips(durations, format) && GuardrailsInRange(g)
    ensures Fold(GuardrailsStep(durations), g0, RenderTimeoutGuardrails(format, g)) ==
            Ok(g0.(minStreamIdleTimeout := g.minStreamIdleTimeout, maxStreamIdleTimeout := g.maxStreamIdleTimeout))
  {
    var g1 := g0.(minStreamIdleTimeout := g.minStreamIdleTimeout);
    var g2 := g1.(maxStreamIdleTimeout := g.maxStreamIdleTimeout);
    FoldPasses(GuardrailsStep(durations), [g0, g1, g2], RenderTimeoutGuardrails(format, g));
  }

  lemma HeaderGuardrailsRoundTrip(durations: DurationParser, g0: S.Guardrails, g: S.Guardrails)
    requires GuardrailsInRange(g)
    ensures Fold(GuardrailsStep(durations), g0, RenderHeaderGuardrails(g)) ==
            Ok(g0.(maxHeaders := g.maxHeaders, maxHeaderBytes := g.maxHeaderBytes))
  {
    IntLeaf(MaxHeaders, g.maxHeaders);
    IntLeaf(MaxHeaderBytes, g.maxHeaderBytes);
    var all := RenderHeaderGuardrails(g);
    HeaderSegments(durations, g0, all[0], all[1], g.maxHeaders, g.maxHeaderBytes);
  }

  lemma ThreeBlocks<C>(step: Parser<C>, c0: C, c1: C, c2: C, a: seq<Segment>, b: seq<Segment>, c: seq<Segment>)
    requires Fold(step, c0, a) == Ok(c1) && Fold(step, c1, b) == Ok(c2)
    ensures Fold(step, c0, a + b + c) == Fold(step, c2, c)
  {
    FoldConcat(step, c0, a + b, c);
    FoldConcat(step, c0, a, b);
  }

  lemma GuardrailsRoundTrip(durations: DurationParser, format: int -> string, g0: S.Guardrails, g: S.Guardrails)
    requires RoundTrips(durations, format) && GuardrailsInRange(g)
    ensures Fold(GuardrailsStep(durations), g0, RenderGuardrails(format, g)) == Ok(g)
  {
    var g1 := g0.(maxSessions := g.maxSessions, maxStreamsPerSession := g.maxStreamsPerSession,
                  maxBandwidthBpsPerSession := g.maxBandwidthBpsPerSession);
    var g2 := g1.(minStreamIdleTimeout := g.minStreamIdleTimeout, maxStreamIdleTimeout := g.maxStreamIdleTimeout);
    SessionGuardrailsRoundTrip(durations, g0, g);
    TimeoutGuardrailsRoundTrip(durations, format, g1, g);
    HeaderGuardrailsRoundTrip(durations, g2, g);
    ThreeBlocks(GuardrailsStep(durations), g0, g1, g2,
                RenderSessionGuardrails(g), RenderTimeoutGuardrails(format, g), RenderHeaderGuardrails(g));
  }

  lemma TuningRoundTrip(durations: DurationParser, format: int -> string, t0: S.Tuning, t: S.Tuning)
    requires RoundTrips(durations, format) && TuningInRange(t)
    ensures Fold(TuningStep(durations), t0, RenderTuning(format, t)) == Ok(t)
  {
    IntLeaf(StreamCopyBufferBytes, t.streamCopyBufferBytes);
    var t1 := t0.(handshakeTimeout := t.handshakeTimeout);
    var t2 := t1.(streamCopyBufferBytes := t.streamCopyBufferBytes);
    var t3 := t2.(tunnelKeepAliveInterval := t.tunnelKeepAliveInterval);
    var all := RenderTuning(format, t);
    FoldFour(TuningStep(durations), t0, t1, t2, t3, t, all[0], all[1], all[2], all[3]);
  }

  lemma EndpointFrom(durations: DurationParser, e: S.Endpoint, limits: seq<Segment>)
    requires InRange(e.maxParallel) && Fold(LimitsStep(durations), S.ZERO_LIMITS, limits) == Ok(e.limits)
    ensures ParseEndpoint(durations, EndpointWith(e, limits)) == Ok(e)
  {
    IntLeaf(MaxParallel, e.maxParallel);
    var e0 := S.Endpoint(e.key, "", "", 0, S.ZERO_LIMITS);
    var e1 := e0.(token := e.token);
    var e2 := e1.(policy := e.policy);
    var e3 := e2.(maxParallel := e.maxParallel);
    var all := BlockOf(EndpointWith(e, limits));
    FoldFour(EndpointStep(durations), e0, e1, e2, e3, e, all[0], all[1], all[2], all[3]);
  }

  lemma EndpointRoundTrip(durations: DurationParser, format: int -> string, e: S.Endpoint)
    requires RoundTrips(durations, format) && InRange(e.maxParallel) && LimitsInRange(e.limits)
    ensures RenderEndpoint(format, e).name == EndpointDirective
    ensures ParseEndpoint(durations, RenderEndpoint(format, e)) == Ok(e)
  {
    LimitsRoundTrip(durations, format, S.ZERO_LIMITS, e.limits);
    EndpointFrom(durations, e, RenderLimits(format, e.limits));
  }

  lemma AppendsEndpoint(durations: DurationParser, f: S.Fields, block: seq<Segment>, e: S.Endpoint)
    requires block != [] && block[0].name == EndpointDirective && ParseEndpoint(durations, block[0]) == Ok(e)
    ensures Fold(ServerStep(durations), f, block) ==
            Fold(ServerStep(durations), f.(endpoints := f.endpoints + [e]), block[1..])
  {
  }

  lemma {:induction false} ParsedEndpointsAreAppended(durations: DurationParser, f: S.Fields, es: seq<S.Endpoint>,
                                                      block: seq<Segment>)
    requires AreParsed(durations, es, block)
    ensures Fold(ServerStep(durations), f, block) == Ok(f.(endpoints := f.endpoints + es))
    decreases block
  {
    if block == [] {
      assert f.endpoints + es == f.endpoints;
    } else {
      AppendsEndpoint(durations, f, block, es[0]);
      var next := f.(endpoints := f.endpoints + [es[0]]);
      ParsedEndpointsAreAppended(durations, next, es[1..], block[1..]);
      assert f.endpoints + es == next.endpoints + es[1..];
    }
  }

  lemma {:induction false} EndpointsRoundTrip(durations: DurationParser, format: int -> string, es: seq<S.Endpoint>)
    requires RoundTrips(durations, format)
    requires forall i :: 0 <= i < |es| ==> InRange(es[i].maxParallel) && LimitsInRange(es[i].limits)
    ensures AreParsed(durations, es, RenderEndpoints(format, es))
  {
    if es != [] {
      var s, rest := RenderEndpoint(format, es[0]), RenderEndpoints(format, es[1..]);
      EndpointRoundTrip(durations, format, es[0]);
      EndpointsRoundTrip(durations, format, es[1..]);
      OneMoreParsed(durations, es[0], s, es[1..], rest);
      assert es == [es[0]] + es[1..] && RenderEndpoints(format, es) == [s] + rest;
    }
  }

  lemma ScalarsFrom(durations: DurationParser, f0: S.Fields, f: S.Fields, guardrails: seq<Segment>,
                    tuning: seq<Segment>)
    requires Fold(GuardrailsStep(durations), f0.guardrails, guardrails) == Ok(f.guardrails)
    requires Fold(TuningStep(durations), f0.tuning, tuning) == Ok(f.tuning)
    requires f0.tlsSubject == f.tlsSubject && f0.endpoints == []
    ensures Fold(ServerStep(durations), f0, ScalarsWith(f, guardrails, tuning)) == Ok(f.(endpoints := []))
  {
    var f1 := f0.(listen := f.listen);
    var f2 := f1.(guardrails := f.guardrails);
    FoldPasses(ServerStep(durations), [f0, f1, f2, f.(endpoints := [])], ScalarsWith(f, guardrails, tuning));
  }

  lemma ScalarsRoundTrip(durations: DurationParser, format: int -> string, f0: S.Fields, f: S.Fields)
    requires RoundTrips(durations, format) && ServerInRange(f)
    requires f0.tlsSubject == f.tlsSubject && f0.endpoints == []
    ensures Fold(ServerStep(durations), f0, RenderServerScalars(format, f)) == Ok(f.(endpoints := []))
  {
    GuardrailsRoundTrip(durations, format, f0.guardrails, f.guardrails);
    TuningRoundTrip(durations, format, f0.tuning, f.tuning);
    ScalarsFrom(durations, f0, f, RenderGuardrails(format, f.guardrails), RenderTuning(format, f.tuning));
  }

  lemma ServerFrom(durations: DurationParser, f: S.Fields, scalars: seq<Segment>, endpoints: seq<Segment>)
    requires Fold(ServerStep(durations), S.Fields("", f.tlsSubject, [], S.ZERO_GUARDRAILS, S.ZERO_TUNING), scalars) ==
             Ok(f.(endpoints := []))
    requires Fold(ServerStep(durations), f.(endpoints := []), endpoints) == Ok(f)
    ensures Runtime(durations, Segment(ServerDirective, [f.tlsSubject], Some(scalars + endpoints))) ==
            Ok(App(Some(S.Normalized(f)), None))
  {
    var start := S.Fields("", f.tlsSubject, [], S.ZERO_GUARDRAILS, S.ZERO_TUNING);
    FoldConcat(ServerStep(durations), start, scalars, endpoints);
  }

  lemma NormalServer(f: S.Fields)
    ensures S.IsNormalized(S.Normalized(f), f)
  {
    S.NormalizedIff(S.Normalized(f), f);
  }

  lemma NormalClient(c: C.Fields)
    ensures C.IsNormalized(C.Normalized(c), c)
  {
    C.NormalizedIff(C.Normalized(c), c);
  }

  lemma ServerParses(durations: DurationParser, format: int -> string, f: S.Fields)
    requires RoundTrips(durations, format) && ServerInRange(f)
    ensures Runtime(durations, RenderServer(format, f)) == Ok(App(Some(S.Normalized(f)), None))
  {
    ScalarsRoundTrip(durations, format, S.Fields("", f.tlsSubject, [], S.ZERO_GUARDRAILS, S.ZERO_TUNING), f);
    EndpointsRoundTrip(durations, format, f.endpoints);
    ParsedEndpointsAreAppended(durations, f.(endpoints := []), f.endpoints, RenderEndpoints(format, f.endpoints));
    assert [] + f.endpoints == f.endpoints;
    ServerFrom(durations, f, RenderServerScalars(format, f), RenderEndpoints(format, f.endpoints));
  }

  /** Every server configuration comes back, normalised, from its rendering. */
  lemma ServerRoundTrip(durations: DurationParser, format: int -> string, f: S.Fields)
    requires RoundTrips(durations, format) && ServerInRange(f)
    ensures Runtime(durations, RenderServer(format, f)).Ok?
    ensures var app := Runtime(durations, RenderServer(format, f)).value;
            app.client.None? && app.server.Some? && S.IsNormalized(app.server.value, f)
  {
    ServerParses(durations, format, f);
    NormalServer(f);
  }

  lemma TlsRoundTrip(c0: C.Fields, c: C.Fields)
    requires c0.connect == c.connect && c0.token == c.token && c0.forward == c.forward && !c0.tlsInsecureSkipVerify
    ensures Fold(TlsStep(), c0, RenderTls(c)) == Ok(c)
  {
    var c1 := c0.(tlsCaFile := c.tlsCaFile);
    var c2 := c1.(tlsServerName := c.tlsServerName);
    FoldPasses(TlsStep(), if c.tlsInsecureSkipVerify then [c0, c1, c2, c] else [c0, c1, c], RenderTls(c));
  }

  lemma ClientParses(durations: DurationParser, c: C.Fields)
    ensures Runtime(durations, RenderClient(c)) == Ok(App(None, Some(C.Normalized(c))))
  {
    var c0 := C.Fields(c.connect, "", "", "", "", false);
    var c1 := c0.(token := c.token);
    var c2 := c1.(forward := c.forward);
    TlsRoundTrip(c2, c);
    FoldPasses(ClientStep(), [c0, c1, c2, c], BlockOf(RenderClient(c)));
  }

  /** Every client configuration comes back, normalised, from its rendering. */
  lemma ClientRoundTrip(durations: DurationParser, c: C.Fields)
    ensures Runtime(durations, RenderClient(c)).Ok?
    ensures var app := Runtime(durations, RenderClient(c)).value;
            app.server.None? && app.client.Some? && C.IsNormalized(app.client.value, c)
  {
    ClientParses(durations, c);
    NormalClient(c);
  }
}
