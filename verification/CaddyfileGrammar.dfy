/** What the Caddyfile parser accepts, directive by directive: whether a block parses never depends
    on the configuration it is applied to. */
module CaddyfileGrammar {
  import opened Wrappers
  import opened Decimal
  import opened Caddyfile
  import S = ServerConfig
  import C = ClientConfig

  predicate IsText(s: Segment) {
    |s.args| == 1 && s.block.None?
  }

  predicate IsInt(s: Segment) {
    IsText(s) && ParseInt(s.args[0]).Some?
  }

  predicate IsDuration(durations: DurationParser, s: Segment) {
    IsText(s) && durations(s.args[0]).Some?
  }

  predicate IsFlag(s: Segment) {
    s.args == [] && s.block.None?
  }

  predicate LimitAllowed(durations: DurationParser, s: Segment) {
    match s.name
    case MaxStreams => IsInt(s)
    case MaxBandwidthBps => IsInt(s)
    case StreamIdleTimeout => IsDuration(durations, s)
    case _ => false
  }

  predicate GuardrailAllowed(durations: DurationParser, s: Segment) {
    match s.name
    case MinStreamIdleTimeout => IsDuration(durations, s)
    case MaxStreamIdleTimeout => IsDuration(durations, s)
    case _ =>
      && (|| s.name == MaxSessions || s.name == MaxStreamsPerSession || s.name == MaxBandwidthBpsPerSession
          || s.name == MaxHeaders || s.name == MaxHeaderBytes)
      && IsInt(s)
  }

  predicate TuningAllowed(durations: DurationParser, s: Segment) {
    match s.name
    case StreamCopyBufferBytes => IsInt(s)
    case _ =>
      && (s.name == HandshakeTimeout || s.name == TunnelKeepaliveInterval || s.name == TunnelKeepaliveTimeout)
      && IsDuration(durations, s)
  }

  predicate EndpointPartAllowed(durations: DurationParser, s: Segment) {
    match s.name
    case Token => IsText(s)
    case Policy => IsText(s)
    case MaxParallel => IsInt(s)
    case LimitsDirective => s.args == [] && forall i | 0 <= i < |BlockOf(s)| :: LimitAllowed(durations, BlockOf(s)[i])
    case _ => false
  }

  predicate ServerPartAllowed(durations: DurationParser, s: Segment) {
    match s.name
    case Listen => IsText(s)
    case EndpointDirective =>
      |s.args| == 1 && forall i | 0 <= i < |BlockOf(s)| :: EndpointPartAllowed(durations, BlockOf(s)[i])
    case GuardrailsDirective =>
      s.args == [] && forall i | 0 <= i < |BlockOf(s)| :: GuardrailAllowed(durations, BlockOf(s)[i])
    case RuntimeDirective => s.args == [] && forall i | 0 <= i < |BlockOf(s)| :: TuningAllowed(durations, BlockOf(s)[i])
    case _ => false
  }

  predicate TlsPartAllowed(s: Segment) {
    match s.name
    case CaFile => IsText(s)
    case ServerName => IsText(s)
    case InsecureSkipVerify => IsFlag(s)
    case _ => false
  }

  predicate ClientPartAllowed(s: Segment) {
    match s.name
    case Token => IsText(s)
    case Forward => IsText(s)
    case TlsDirective => s.args == [] && forall i | 0 <= i < |BlockOf(s)| :: TlsPartAllowed(BlockOf(s)[i])
    case _ => false
  }

  /** A server or client directive: one argument, and a block of allowed directives. */
  predicate RuntimeAllowed(durations: DurationParser, s: Segment) {
    && |s.args| == 1
    && match s.name
       case ServerDirective => forall i | 0 <= i < |BlockOf(s)| :: ServerPartAllowed(durations, BlockOf(s)[i])
       case ClientDirective => forall i | 0 <= i < |BlockOf(s)| :: ClientPartAllowed(BlockOf(s)[i])
       case _ => false
  }

  ghost predicate AcceptsExactly<C(!new)>(step: Parser<C>, allowed: Segment -> bool) {
    forall c, s :: step(c, s).Ok? <==> allowed(s)
  }

  lemma {:induction false} FoldOkIff<C(!new)>(step: Parser<C>, allowed: Segment -> bool, c: C, block: seq<Segment>)
    requires AcceptsExactly(step, allowed)
    ensures Fold(step, c, block).Ok? <==> forall i :: 0 <= i < |block| ==> allowed(block[i])
    decreases block
  {
    if block != [] {
      assert step(c, block[0]).Ok? <==> allowed(block[0]);
      assert forall i :: 1 <= i < |block| ==> block[i] == block[1..][i - 1];
      if step(c, block[0]).Ok? {
        FoldOkIff(step, allowed, step(c, block[0]).value, block[1..]);
      }
    }
  }

  lemma LimitsOkIff(durations: DurationParser, l: S.EndpointLimits, block: seq<Segment>)
    ensures Fold(LimitsStep(durations), l, block).Ok? <==>
            forall i :: 0 <= i < |block| ==> LimitAllowed(durations, block[i])
  {
    FoldOkIff(LimitsStep(durations), s => LimitAllowed(durations, s), l, block);
  }

  lemma GuardrailsOkIff(durations: DurationParser, g: S.Guardrails, block: seq<Segment>)
    ensures Fold(GuardrailsStep(durations), g, block).Ok? <==>
            forall i :: 0 <= i < |block| ==> GuardrailAllowed(durations, block[i])
  {
    FoldOkIff(GuardrailsStep(durations), s => GuardrailAllowed(durations, s), g, block);
  }

  lemma TuningOkIff(durations: DurationParser, t: S.Tuning, block: seq<Segment>)
    ensures Fold(TuningStep(durations), t, block).Ok? <==>
            forall i :: 0 <= i < |block| ==> TuningAllowed(durations, block[i])
  {
    FoldOkIff(TuningStep(durations), s => TuningAllowed(durations, s), t, block);
  }

  lemma EndpointOkIff(durations: DurationParser, e: S.Endpoint, block: seq<Segment>)
    ensures Fold(EndpointStep(durations), e, block).Ok? <==>
            forall i :: 0 <= i < |block| ==> EndpointPartAllowed(durations, block[i])
  {
    var allowed := s => EndpointPartAllowed(durations, s);
    forall e0, s
      ensures EndpointStep(durations)(e0, s).Ok? <==> allowed(s)
    {
      LimitsOkIff(durations, e0.limits, BlockOf(s));
    }
    FoldOkIff(EndpointStep(durations), allowed, e, block);
  }

  lemma ServerOkIff(durations: DurationParser, f: S.Fields, block: seq<Segment>)
    ensures Fold(ServerStep(durations), f, block).Ok? <==>
            forall i :: 0 <= i < |block| ==> ServerPartAllowed(durations, block[i])
  {
    var allowed := s => ServerPartAllowed(durations, s);
    forall f0, s
      ensures ServerStep(durations)(f0, s).Ok? <==> allowed(s)
    {
      ServerPartOkIff(durations, f0, s);
    }
    FoldOkIff(ServerStep(durations), allowed, f, block);
  }

  lemma ServerPartOkIff(durations: DurationParser, f: S.Fields, s: Segment)
    ensures ApplyServer(durations, f, s).Ok? <==> ServerPartAllowed(durations, s)
  {
    match s.name
    case EndpointDirective =>
      if |s.args| == 1 {
        EndpointOkIff(durations, S.Endpoint(s.args[0], "", "", 0, S.ZERO_LIMITS), BlockOf(s));
      }
    case GuardrailsDirective => GuardrailsOkIff(durations, f.guardrails, BlockOf(s));
    case RuntimeDirective => TuningOkIff(durations, f.tuning, BlockOf(s));
    case _ =>
  }

  lemma TlsOkIff(c: C.Fields, block: seq<Segment>)
    ensures Fold(TlsStep(), c, block).Ok? <==> forall i :: 0 <= i < |block| ==> TlsPartAllowed(block[i])
  {
    FoldOkIff(TlsStep(), s => TlsPartAllowed(s), c, block);
  }

  lemma ClientOkIff(c: C.Fields, block: seq<Segment>)
    ensures Fold(ClientStep(), c, block).Ok? <==> forall i :: 0 <= i < |block| ==> ClientPartAllowed(block[i])
  {
    var allowed := s => ClientPartAllowed(s);
    forall c0, s
      ensures ClientStep()(c0, s).Ok? <==> allowed(s)
    {
      TlsOkIff(c0, BlockOf(s));
    }
    FoldOkIff(ClientStep(), allowed, c, block);
  }

  /** A runtime parses exactly when every directive in it, at every depth, has a known name, the
      right number of arguments and a value that can be read. */
  lemma RuntimeOkIff(durations: DurationParser, s: Segment)
    ensures ApplyApp(durations, EMPTY_APP, s).Ok? <==> RuntimeAllowed(durations, s)
  {
    if |s.args| == 1 {
      ServerOkIff(durations, S.Fields("", s.args[0], [], S.ZERO_GUARDRAILS, S.ZERO_TUNING), BlockOf(s));
      ClientOkIff(C.Fields(s.args[0], "", "", "", "", false), BlockOf(s));
    }
  }
}
