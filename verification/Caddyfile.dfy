/** The Caddyfile parser. A directive is a segment: its name, the arguments on its line and the
    block it opens, if it opens one. Every loop over the directives of a block is a fold. */
module Caddyfile {
  import opened Wrappers
  import opened Decimal
  import S = ServerConfig
  import C = ClientConfig

  /** The directive names the parser knows ("max_streams" is MaxStreams, and so on), and any other. */
  datatype Directive =
    | ServerDirective | ClientDirective
    | Listen | EndpointDirective | GuardrailsDirective | RuntimeDirective | Connector | TlsDirective
    | Token | Policy | MaxParallel | LimitsDirective
    | MaxStreams | MaxBandwidthBps | StreamIdleTimeout
    | MaxSessions | MaxStreamsPerSession | MaxBandwidthBpsPerSession | MinStreamIdleTimeout | MaxStreamIdleTimeout
    | MaxHeaders | MaxHeaderBytes
    | HandshakeTimeout | StreamCopyBufferBytes | TunnelKeepaliveInterval | TunnelKeepaliveTimeout
    | Connect | Forward | CaFile | ServerName | InsecureSkipVerify
    | TlsCaFile | TlsServerName | TlsInsecureSkipVerify
    | OtherName(text: string)

  datatype Segment = Segment(name: Directive, args: seq<string>, block: Option<seq<Segment>>)

  datatype ParseError = WrongArguments | UnknownDirective | NoLongerSupported | BadInteger | BadDuration | TwoRuntimes

  /** How durations are written; time.ParseDuration is not modelled. */
  type DurationParser = string -> Option<int>

  type Parser<!C> = (C, Segment) -> Result<C, ParseError>

  function BlockOf(s: Segment): seq<Segment> {
    if s.block.Some? then s.block.value else []
  }

  /** The directives of a block, applied in order until one fails. */
  function Fold<C>(step: Parser<C>, c: C, segments: seq<Segment>): Result<C, ParseError> {
    if segments == [] then Ok(c)
    else
      match step(c, segments[0])
      case Err(e) => Err(e)
      case Ok(next) => Fold(step, next, segments[1..])
  }

  method ParseBlock<C>(step: Parser<C>, initial: C, segments: seq<Segment>) returns (r: Result<C, ParseError>)
    ensures r == Fold(step, initial, segments)
  {
    var c := initial;
    for i := 0 to |segments|
      invariant Fold(step, c, segments[i..]) == Fold(step, initial, segments)
    {
      assert segments[i..][1..] == segments[i + 1..];
      var next := step(c, segments[i]);
      if next.Err? {
        return Err(next.error);
      }
      c := next.value;
    }
    return Ok(c);
  }

  // Single values. A block after one is an error, found once the value itself has been read.

  function SingleArg(s: Segment): Result<string, ParseError> {
    if |s.args| == 1 && s.block.None? then Ok(s.args[0]) else Err(WrongArguments)
  }

  function SingleInt(s: Segment): Result<int, ParseError> {
    if |s.args| != 1 then Err(WrongArguments)
    else
      match ParseInt(s.args[0])
      case None => Err(BadInteger)
      case Some(n) => if s.block.Some? then Err(WrongArguments) else Ok(n)
  }

  function SingleDuration(durations: DurationParser, s: Segment): Result<int, ParseError> {
    if |s.args| != 1 then Err(WrongArguments)
    else
      match durations(s.args[0])
      case None => Err(BadDuration)
      case Some(n) => if s.block.Some? then Err(WrongArguments) else Ok(n)
  }

  // The blocks.

  function ApplyLimits(durations: DurationParser, l: S.EndpointLimits, s: Segment): Result<S.EndpointLimits, ParseError>
  {
    match s.name
    case MaxStreams => (match SingleInt(s) case Err(e) => Err(e) case Ok(v) => Ok(l.(maxStreams := v)))
    case MaxBandwidthBps => (match SingleInt(s) case Err(e) => Err(e) case Ok(v) => Ok(l.(maxBandwidthBps := v)))
    case StreamIdleTimeout =>
      (match SingleDuration(durations, s) case Err(e) => Err(e) case Ok(v) => Ok(l.(streamIdleTimeout := v)))
    case _ => Err(UnknownDirective)
  }

  function LimitsStep(durations: DurationParser): Parser<S.EndpointLimits> {
    (l: S.EndpointLimits, s: Segment) => ApplyLimits(durations, l, s)
  }

  function ApplyGuardrails(durations: DurationParser, g: S.Guardrails, s: Segment): Result<S.Guardrails, ParseError> {
    match s.name
    case MaxSessions => (match SingleInt(s) case Err(e) => Err(e) case Ok(v) => Ok(g.(maxSessions := v)))
    case MaxStreamsPerSession =>
      (match SingleInt(s) case Err(e) => Err(e) case Ok(v) => Ok(g.(maxStreamsPerSession := v)))
    case MaxBandwidthBpsPerSession =>
      (match SingleInt(s) case Err(e) => Err(e) case Ok(v) => Ok(g.(maxBandwidthBpsPerSession := v)))
    case MinStreamIdleTimeout =>
      (match SingleDuration(durations, s) case Err(e) => Err(e) case Ok(v) => Ok(g.(minStreamIdleTimeout := v)))
    case MaxStreamIdleTimeout =>
      (match SingleDuration(durations, s) case Err(e) => Err(e) case Ok(v) => Ok(g.(maxStreamIdleTimeout := v)))
    case MaxHeaders => (match SingleInt(s) case Err(e) => Err(e) case Ok(v) => Ok(g.(maxHeaders := v)))
    case MaxHeaderBytes => (match SingleInt(s) case Err(e) => Err(e) case Ok(v) => Ok(g.(maxHeaderBytes := v)))
    case _ => Err(UnknownDirective)
  }

  function GuardrailsStep(durations: DurationParser): Parser<S.Guardrails> {
    (g: S.Guardrails, s: Segment) => ApplyGuardrails(durations, g, s)
  }

  function ApplyTuning(durations: DurationParser, t: S.Tuning, s: Segment): Result<S.Tuning, ParseError> {
    match s.name
    case HandshakeTimeout =>
      (match SingleDuration(durations, s) case Err(e) => Err(e) case Ok(v) => Ok(t.(handshakeTimeout := v)))
    case StreamCopyBufferBytes =>
      (match SingleInt(s) case Err(e) => Err(e) case Ok(v) => Ok(t.(streamCopyBufferBytes := v)))
    case TunnelKeepaliveInterval =>
      (match SingleDuration(durations, s) case Err(e) => Err(e) case Ok(v) => Ok(t.(tunnelKeepAliveInterval := v)))
    case TunnelKeepaliveTimeout =>
      (match SingleDuration(durations, s) case Err(e) => Err(e) case Ok(v) => Ok(t.(tunnelKeepAliveTimeout := v)))
    case _ => Err(UnknownDirective)
  }

  function TuningStep(durations: DurationParser): Parser<S.Tuning> {
    (t: S.Tuning, s: Segment) => ApplyTuning(durations, t, s)
  }

  function ApplyEndpoint(durations: DurationParser, e: S.Endpoint, s: Segment): Result<S.Endpoint, ParseError> {
    match s.name
    case Token => (match SingleArg(s) case Err(error) => Err(error) case Ok(v) => Ok(e.(token := v)))
    case Policy => (match SingleArg(s) case Err(error) => Err(error) case Ok(v) => Ok(e.(policy := v)))
    case MaxParallel => (match SingleInt(s) case Err(error) => Err(error) case Ok(v) => Ok(e.(maxParallel := v)))
    case LimitsDirective =>
      if s.args != [] then Err(WrongArguments)
      else
        (match Fold(LimitsStep(durations), e.limits, BlockOf(s))
         case Err(error) => Err(error)
         case Ok(v) => Ok(e.(limits := v)))
    case _ => Err(UnknownDirective)
  }

  function EndpointStep(durations: DurationParser): Parser<S.Endpoint> {
    (e: S.Endpoint, s: Segment) => ApplyEndpoint(durations, e, s)
  }

  function ParseEndpoint(durations: DurationParser, s: Segment): Result<S.Endpoint, ParseError> {
    if |s.args| != 1 then Err(WrongArguments)
    else Fold(EndpointStep(durations), S.Endpoint(s.args[0], "", "", 0, S.ZERO_LIMITS), BlockOf(s))
  }

  function ApplyServer(durations: DurationParser, f: S.Fields, s: Segment): Result<S.Fields, ParseError> {
    match s.name
    case Listen => (match SingleArg(s) case Err(e) => Err(e) case Ok(v) => Ok(f.(listen := v)))
    case EndpointDirective =>
      (match ParseEndpoint(durations, s) case Err(e) => Err(e) case Ok(v) => Ok(f.(endpoints := f.endpoints + [v])))
    case GuardrailsDirective =>
      if s.args != [] then Err(WrongArguments)
      else
        (match Fold(GuardrailsStep(durations), f.guardrails, BlockOf(s))
         case Err(e) => Err(e)
         case Ok(v) => Ok(f.(guardrails := v)))
    case RuntimeDirective =>
      if s.args != [] then Err(WrongArguments)
      else
        (match Fold(TuningStep(durations), f.tuning, BlockOf(s))
         case Err(e) => Err(e)
         case Ok(v) => Ok(f.(tuning := v)))
    case Connector => Err(NoLongerSupported)
    case TlsDirective => Err(NoLongerSupported)
    case _ => Err(UnknownDirective)
  }

  function ServerStep(durations: DurationParser): Parser<S.Fields> {
    (f: S.Fields, s: Segment) => ApplyServer(durations, f, s)
  }

  function ApplyTls(c: C.Fields, s: Segment): Result<C.Fields, ParseError> {
    match s.name
    case CaFile => (match SingleArg(s) case Err(e) => Err(e) case Ok(v) => Ok(c.(tlsCaFile := v)))
    case ServerName => (match SingleArg(s) case Err(e) => Err(e) case Ok(v) => Ok(c.(tlsServerName := v)))
    case InsecureSkipVerify =>
      if s.args != [] || s.block.Some? then Err(WrongArguments) else Ok(c.(tlsInsecureSkipVerify := true))
    case _ => Err(UnknownDirective)
  }

  function TlsStep(): Parser<C.Fields> {
    (c: C.Fields, s: Segment) => ApplyTls(c, s)
  }

  function ApplyClient(c: C.Fields, s: Segment): Result<C.Fields, ParseError> {
    match s.name
    case Token => (match SingleArg(s) case Err(e) => Err(e) case Ok(v) => Ok(c.(token := v)))
    case Forward => (match SingleArg(s) case Err(e) => Err(e) case Ok(v) => Ok(c.(forward := v)))
    case TlsDirective =>
      if s.args != [] then Err(WrongArguments) else Fold(TlsStep(), c, BlockOf(s))
    case Connect => Err(NoLongerSupported)
    case TlsCaFile => Err(NoLongerSupported)
    case TlsServerName => Err(NoLongerSupported)
    case TlsInsecureSkipVerify => Err(NoLongerSupported)
    case _ => Err(UnknownDirective)
  }

  function ClientStep(): Parser<C.Fields> {
    (c: C.Fields, s: Segment) => ApplyClient(c, s)
  }

  datatype App = App(server: Option<S.Fields>, client: Option<C.Fields>)

  const EMPTY_APP := App(None, None)

  function ParseServer(durations: DurationParser, s: Segment): Result<App, ParseError>
    requires |s.args| == 1
  {
    match Fold(ServerStep(durations), S.Fields("", s.args[0], [], S.ZERO_GUARDRAILS, S.ZERO_TUNING), BlockOf(s))
    case Err(e) => Err(e)
    case Ok(v) => Ok(App(Some(S.Normalized(v)), None))
  }

  function ParseClient(s: Segment): Result<App, ParseError>
    requires |s.args| == 1
  {
    match Fold(ClientStep(), C.Fields(s.args[0], "", "", "", "", false), BlockOf(s))
    case Err(e) => Err(e)
    case Ok(v) => Ok(App(None, Some(C.Normalized(v))))
  }

  function ApplyApp(durations: DurationParser, app: App, s: Segment): Result<App, ParseError> {
    if s.name != ServerDirective && s.name != ClientDirective then Err(UnknownDirective)
    else if app != EMPTY_APP then Err(TwoRuntimes)
    else if |s.args| != 1 then Err(WrongArguments)
    else if s.name == ServerDirective then ParseServer(durations, s)
    else ParseClient(s)
  }

  function AppStep(durations: DurationParser): Parser<App> {
    (app: App, s: Segment) => ApplyApp(durations, app, s)
  }

  function TopStep(durations: DurationParser): Parser<App> {
    (app: App, top: Segment) =>
      if top.args != [] then Err(WrongArguments) else Fold(AppStep(durations), app, BlockOf(top))
  }

  /** ParseApp over all the app's top-level directives. */
  method ParseApp(durations: DurationParser, tops: seq<Segment>) returns (r: Result<App, ParseError>)
    ensures r == Fold(TopStep(durations), EMPTY_APP, tops)
  {
    var app := EMPTY_APP;
    for i := 0 to |tops|
      invariant Fold(TopStep(durations), app, tops[i..]) == Fold(TopStep(durations), EMPTY_APP, tops)
    {
      assert tops[i..][1..] == tops[i + 1..];
      if tops[i].args != [] {
        return Err(WrongArguments);
      }
      r := ParseBlock(AppStep(durations), app, BlockOf(tops[i]));
      if r.Err? {
        return;
      }
      app := r.value;
    }
    return Ok(app);
  }
}
