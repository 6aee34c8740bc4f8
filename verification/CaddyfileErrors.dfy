/** Why the Caddyfile parser refuses a file: which directive is to blame, and for what. */
module CaddyfileErrors {
  import opened Wrappers
  import opened Decimal
  import opened Caddyfile
  import opened CaddyfileGrammar
  import S = ServerConfig
  import C = ClientConfig

  // Directives with a value. The number of arguments is checked first, then the value, then that no
  // block follows.

  predicate TextRefused(s: Segment, e: ParseError) {
    !IsText(s) && e == WrongArguments
  }

  predicate ValueRefused(s: Segment, readable: bool, unreadable: ParseError, e: ParseError) {
    || (|s.args| != 1 && e == WrongArguments)
    || (|s.args| == 1 && !readable && e == unreadable)
    || (|s.args| == 1 && readable && s.block.Some? && e == WrongArguments)
  }

  predicate IntRefused(s: Segment, e: ParseError) {
    ValueRefused(s, |s.args| == 1 && ParseInt(s.args[0]).Some?, BadInteger, e)
  }

  predicate DurationRefused(durations: DurationParser, s: Segment, e: ParseError) {
    ValueRefused(s, |s.args| == 1 && durations(s.args[0]).Some?, BadDuration, e)
  }

  // The directives of each block.

  predicate LimitRefused(durations: DurationParser, s: Segment, e: ParseError) {
    match s.name
    case MaxStreams => IntRefused(s, e)
    case MaxBandwidthBps => IntRefused(s, e)
    case StreamIdleTimeout => DurationRefused(durations, s, e)
    case _ => e == UnknownDirective
  }

  predicate GuardrailRefused(durations: DurationParser, s: Segment, e: ParseError) {
    if s.name == MinStreamIdleTimeout || s.name == MaxStreamIdleTimeout then DurationRefused(durations, s, e)
    else if || s.name == MaxSessions || s.name == MaxStreamsPerSession || s.name == MaxBandwidthBpsPerSession
            || s.name == MaxHeaders || s.name == MaxHeaderBytes then
      IntRefused(s, e)
    else e == UnknownDirective
  }

  predicate TuningRefused(durations: DurationParser, s: Segment, e: ParseError) {
    if s.name == HandshakeTimeout || s.name == TunnelKeepaliveInterval || s.name == TunnelKeepaliveTimeout then
      DurationRefused(durations, s, e)
    else if s.name == StreamCopyBufferBytes then IntRefused(s, e)
    else e == UnknownDirective
  }

  predicate TlsPartRefused(s: Segment, e: ParseError) {
    match s.name
    case CaFile => TextRefused(s, e)
    case ServerName => TextRefused(s, e)
    case InsecureSkipVerify => !IsFlag(s) && e == WrongArguments
    case _ => e == UnknownDirective
  }

  /** The first directive that is not allowed is refused for e. */
  predicate BlockRefused(allowed: Segment -> bool, refused: (Segment, ParseError) -> bool, block: seq<Segment>,
                         e: ParseError)
  {
    exists i | 0 <= i < |block| :: refused(block[i], e) && forall j | 0 <= j < i :: allowed(block[j])
  }

  /** A directive that opens a block of its own, and takes no arguments. */
  predicate NestedRefused(s: Segment, inner: bool, e: ParseError) {
    if s.args != [] then e == WrongArguments else inner
  }

  predicate LimitsRefused(durations: DurationParser, block: seq<Segment>, e: ParseError) {
    BlockRefused(s => LimitAllowed(durations, s), (s, x) => LimitRefused(durations, s, x), block, e)
  }

  predicate GuardrailsRefused(durations: DurationParser, block: seq<Segment>, e: ParseError) {
    BlockRefused(s => GuardrailAllowed(durations, s), (s, x) => GuardrailRefused(durations, s, x), block, e)
  }

  predicate TuningsRefused(durations: DurationParser, block: seq<Segment>, e: ParseError) {
    BlockRefused(s => TuningAllowed(durations, s), (s, x) => TuningRefused(durations, s, x), block, e)
  }

  predicate TlsRefused(block: seq<Segment>, e: ParseError) {
    BlockRefused(s => TlsPartAllowed(s), (s, x) => TlsPartRefused(s, x), block, e)
  }

  predicate EndpointPartRefused(durations: DurationParser, s: Segment, e: ParseError) {
    match s.name
    case Token => TextRefused(s, e)
    case Policy => TextRefused(s, e)
    case MaxParallel => IntRefused(s, e)
    case LimitsDirective => NestedRefused(s, LimitsRefused(durations, BlockOf(s), e), e)
    case _ => e == UnknownDirective
  }

  predicate EndpointRefused(durations: DurationParser, block: seq<Segment>, e: ParseError) {
    BlockRefused(s => EndpointPartAllowed(durations, s), (s, x) => EndpointPartRefused(durations, s, x), block, e)
  }

  predicate ServerPartRefused(durations: DurationParser, s: Segment, e: ParseError) {
    match s.name
    case Listen => TextRefused(s, e)
    case EndpointDirective => if |s.args| != 1 then e == WrongArguments else EndpointRefused(durations, BlockOf(s), e)
    case GuardrailsDirective => NestedRefused(s, GuardrailsRefused(durations, BlockOf(s), e), e)
    case RuntimeDirective => NestedRefused(s, TuningsRefused(durations, BlockOf(s), e), e)
    case Connector => e == NoLongerSupported
    case TlsDirective => e == NoLongerSupported
    case _ => e == UnknownDirective
  }

  predicate ServerRefused(durations: DurationParser, block: seq<Segment>, e: ParseError) {
    BlockRefused(s => ServerPartAllowed(durations, s), (s, x) => ServerPartRefused(durations, s, x), block, e)
  }

  predicate ClientPartRefused(s: Segment, e: ParseError) {
    match s.name
    case Token => TextRefused(s, e)
    case Forward => TextRefused(s, e)
    case TlsDirective => NestedRefused(s, TlsRefused(BlockOf(s), e), e)
    case Connect => e == NoLongerSupported
    case TlsCaFile => e == NoLongerSupported
    case TlsServerName => e == NoLongerSupported
    case TlsInsecureSkipVerify => e == NoLongerSupported
    case _ => e == UnknownDirective
  }

  predicate ClientRefused(block: seq<Segment>, e: ParseError) {
    BlockRefused(s => ClientPartAllowed(s), (s, x) => ClientPartRefused(s, x), block, e)
  }

  predicate IsRuntimeName(name: Directive) {
    name == ServerDirective || name == ClientDirective
  }

  /** A runtime that is the only one so far. */
  predicate RuntimeRefused(durations: DurationParser, s: Segment, e: ParseError) {
    if !IsRuntimeName(s.name) then e == UnknownDirective
    else if |s.args| != 1 then e == WrongArguments
    else if s.name == ServerDirective then ServerRefused(durations, BlockOf(s), e)
    else ClientRefused(BlockOf(s), e)
  }

  // The parser refuses exactly so.

  ghost predicate RefusesExactly<C(!new)>(step: Parser<C>, allowed: Segment -> bool,
                                          refused: (Segment, ParseError) -> bool)
  {
    && (forall c, s :: step(c, s).Ok? <==> allowed(s))
    && (forall c, s, e :: step(c, s) == Err(e) <==> refused(s, e))
  }

  /** Folding fails with the error of the first directive that is not allowed. */
  lemma {:induction false} FoldErrIff<C(!new)>(step: Parser<C>, allowed: Segment -> bool,
                                               refused: (Segment, ParseError) -> bool, c: C, block: seq<Segment>,
                                               e: ParseError)
    requires RefusesExactly(step, allowed, refused)
    ensures Fold(step, c, block) == Err(e) <==> BlockRefused(allowed, refused, block, e)
    decreases block
  {
    if block != [] {
      assert step(c, block[0]).Ok? <==> allowed(block[0]);
      assert step(c, block[0]) == Err(e) <==> refused(block[0], e);
      BlockRefusedStep(allowed, refused, block, e);
      if step(c, block[0]).Ok? {
        FoldErrIff(step, allowed, refused, step(c, block[0]).value, block[1..], e);
      }
    }
  }

  lemma BlockRefusedStep(allowed: Segment -> bool, refused: (Segment, ParseError) -> bool, block: seq<Segment>,
                         e: ParseError)
    requires block != []
    ensures BlockRefused(allowed, refused, block, e) <==>
            refused(block[0], e) || (allowed(block[0]) && BlockRefused(allowed, refused, block[1..], e))
  {
    var rest := block[1..];
    if i :| 0 <= i < |block| && refused(block[i], e) && forall j | 0 <= j < i :: allowed(block[j]) {
      if i > 0 {
        assert refused(rest[i - 1], e) && forall j | 0 <= j < i - 1 :: allowed(rest[j]);
      }
    }
    if allowed(block[0]) {
      if i :| 0 <= i < |rest| && refused(rest[i], e) && forall j | 0 <= j < i :: allowed(rest[j]) {
        assert refused(block[i + 1], e);
        assert forall j | 0 <= j < i + 1 :: j == 0 || block[j] == rest[j - 1];
      }
    }
  }

  lemma ValueErrIff(durations: DurationParser, s: Segment, e: ParseError)
    ensures SingleArg(s) == Err(e) <==> TextRefused(s, e)
    ensures SingleInt(s) == Err(e) <==> IntRefused(s, e)
    ensures SingleDuration(durations, s) == Err(e) <==> DurationRefused(durations, s, e)
  {
  }

  lemma LimitsErrIff(durations: DurationParser, l: S.EndpointLimits, block: seq<Segment>, e: ParseError)
    ensures Fold(LimitsStep(durations), l, block) == Err(e) <==> LimitsRefused(durations, block, e)
  {
    FoldErrIff(LimitsStep(durations), s => LimitAllowed(durations, s), (s, x) => LimitRefused(durations, s, x),
               l, block, e);
  }

  lemma GuardrailErrIff(durations: DurationParser, g: S.Guardrails, s: Segment, e: ParseError)
    ensures ApplyGuardrails(durations, g, s).Ok? <==> GuardrailAllowed(durations, s)
    ensures ApplyGuardrails(durations, g, s) == Err(e) <==> GuardrailRefused(durations, s, e)
  {
    ValueErrIff(durations, s, e);
  }

  lemma GuardrailsErrIff(durations: DurationParser, g: S.Guardrails, block: seq<Segment>, e: ParseError)
    ensures Fold(GuardrailsStep(durations), g, block) == Err(e) <==> GuardrailsRefused(durations, block, e)
  {
    forall g0, s, x
      ensures GuardrailsStep(durations)(g0, s).Ok? <==> GuardrailAllowed(durations, s)
      ensures GuardrailsStep(durations)(g0, s) == Err(x) <==> GuardrailRefused(durations, s, x)
    {
      GuardrailErrIff(durations, g0, s, x);
    }
    FoldErrIff(GuardrailsStep(durations), s => GuardrailAllowed(durations, s),
               (s, x) => GuardrailRefused(durations, s, x), g, block, e);
  }

  lemma TuningPartErrIff(durations: DurationParser, t: S.Tuning, s: Segment, e: ParseError)
    ensures ApplyTuning(durations, t, s).Ok? <==> TuningAllowed(durations, s)
    ensures ApplyTuning(durations, t, s) == Err(e) <==> TuningRefused(durations, s, e)
  {
    ValueErrIff(durations, s, e);
  }

  lemma TuningErrIff(durations: DurationParser, t: S.Tuning, block: seq<Segment>, e: ParseError)
    ensures Fold(TuningStep(durations), t, block) == Err(e) <==> TuningsRefused(durations, block, e)
  {
    forall t0, s, x
      ensures TuningStep(durations)(t0, s).Ok? <==> TuningAllowed(durations, s)
      ensures TuningStep(durations)(t0, s) == Err(x) <==> TuningRefused(durations, s, x)
    {
      TuningPartErrIff(durations, t0, s, x);
    }
    FoldErrIff(TuningStep(durations), s => TuningAllowed(durations, s), (s, x) => TuningRefused(durations, s, x),
               t, block, e);
  }

  lemma TlsErrIff(c: C.Fields, block: seq<Segment>, e: ParseError)
    ensures Fold(TlsStep(), c, block) == Err(e) <==> TlsRefused(block, e)
  {
    FoldErrIff(TlsStep(), s => TlsPartAllowed(s), (s, x) => TlsPartRefused(s, x), c, block, e);
  }

  lemma EndpointPartErrIff(durations: DurationParser, endpoint: S.Endpoint, s: Segment, e: ParseError)
    ensures ApplyEndpoint(durations, endpoint, s).Ok? <==> EndpointPartAllowed(durations, s)
    ensures ApplyEndpoint(durations, endpoint, s) == Err(e) <==> EndpointPartRefused(durations, s, e)
  {
    ValueErrIff(durations, s, e);
    LimitsErrIff(durations, endpoint.limits, BlockOf(s), e);
    LimitsOkIff(durations, endpoint.limits, BlockOf(s));
  }

  lemma EndpointErrIff(durations: DurationParser, endpoint: S.Endpoint, block: seq<Segment>, e: ParseError)
    ensures Fold(EndpointStep(durations), endpoint, block) == Err(e) <==> EndpointRefused(durations, block, e)
  {
    forall e0, s, x
      ensures EndpointStep(durations)(e0, s).Ok? <==> EndpointPartAllowed(durations, s)
      ensures EndpointStep(durations)(e0, s) == Err(x) <==> EndpointPartRefused(durations, s, x)
    {
      EndpointPartErrIff(durations, e0, s, x);
    }
    FoldErrIff(EndpointStep(durations), s => EndpointPartAllowed(durations, s),
               (s, x) => EndpointPartRefused(durations, s, x), endpoint, block, e);
  }

  lemma ServerPartErrIff(durations: DurationParser, f: S.Fields, s: Segment, e: ParseError)
    ensures ApplyServer(durations, f, s) == Err(e) <==> ServerPartRefused(durations, s, e)
  {
    match s.name
    case Listen => ValueErrIff(durations, s, e);
    case EndpointDirective =>
      if |s.args| == 1 {
        EndpointErrIff(durations, S.Endpoint(s.args[0], "", "", 0, S.ZERO_LIMITS), BlockOf(s), e);
      }
    case GuardrailsDirective => GuardrailsErrIff(durations, f.guardrails, BlockOf(s), e);
    case RuntimeDirective => TuningErrIff(durations, f.tuning, BlockOf(s), e);
    case _ =>
  }

  lemma ServerErrIff(durations: DurationParser, f: S.Fields, block: seq<Segment>, e: ParseError)
    ensures Fold(ServerStep(durations), f, block) == Err(e) <==> ServerRefused(durations, block, e)
  {
    forall f0, s, x
      ensures ServerStep(durations)(f0, s).Ok? <==> ServerPartAllowed(durations, s)
      ensures ServerStep(durations)(f0, s) == Err(x) <==> ServerPartRefused(durations, s, x)
    {
      ServerPartOkIff(durations, f0, s);
      ServerPartErrIff(durations, f0, s, x);
    }
    FoldErrIff(ServerStep(durations), s => ServerPartAllowed(durations, s),
               (s, x) => ServerPartRefused(durations, s, x), f, block, e);
  }

  lemma ClientPartErrIff(c: C.Fields, s: Segment, e: ParseError)
    ensures ApplyClient(c, s).Ok? <==> ClientPartAllowed(s)
    ensures ApplyClient(c, s) == Err(e) <==> ClientPartRefused(s, e)
  {
    TlsErrIff(c, BlockOf(s), e);
    TlsOkIff(c, BlockOf(s));
  }

  lemma ClientErrIff(c: C.Fields, block: seq<Segment>, e: ParseError)
    ensures Fold(ClientStep(), c, block) == Err(e) <==> ClientRefused(block, e)
  {
    forall c0, s, x
      ensures ClientStep()(c0, s).Ok? <==> ClientPartAllowed(s)
      ensures ClientStep()(c0, s) == Err(x) <==> ClientPartRefused(s, x)
    {
      ClientPartErrIff(c0, s, x);
    }
    FoldErrIff(ClientStep(), s => ClientPartAllowed(s), (s, x) => ClientPartRefused(s, x), c, block, e);
  }

  /** A runtime that is refused is refused for the first directive, at every depth, that is not
      allowed where it stands. */
  lemma RuntimeErrIff(durations: DurationParser, s: Segment, e: ParseError)
    ensures ApplyApp(durations, EMPTY_APP, s) == Err(e) <==> RuntimeRefused(durations, s, e)
  {
    if |s.args| == 1 {
      ServerErrIff(durations, S.Fields("", s.args[0], [], S.ZERO_GUARDRAILS, S.ZERO_TUNING), BlockOf(s), e);
      ClientErrIff(C.Fields(s.args[0], "", "", "", "", false), BlockOf(s), e);
    }
  }

  // The app.

  /** What the top-level directives hold, in order: a runtime directive, or an argument that has no
      place there and hides the block after it. */
  datatype Item = Misplaced | Placed(directive: Segment)

  function Items(tops: seq<Segment>): seq<Item> {
    if tops == [] then []
    else (if tops[0].args != [] then [Misplaced] else PlacedItems(BlockOf(tops[0]))) + Items(tops[1..])
  }

  function PlacedItems(block: seq<Segment>): seq<Item> {
    seq(|block|, i requires 0 <= i < |block| => Placed(block[i]))
  }

  /** The first item is refused for what it is. */
  predicate FirstRefused(durations: DurationParser, item: Item, e: ParseError) {
    match item
    case Misplaced => e == WrongArguments
    case Placed(s) => RuntimeRefused(durations, s, e)
  }

  /** Nothing may follow an allowed runtime: another one is refused for being the second, whatever
      its arguments and its block. */
  predicate SecondRefused(item: Item, e: ParseError) {
    match item
    case Misplaced => e == WrongArguments
    case Placed(s) => e == if IsRuntimeName(s.name) then TwoRuntimes else UnknownDirective
  }

  function FoldItems(durations: DurationParser, app: App, items: seq<Item>): Result<App, ParseError>
    decreases items
  {
    if items == [] then Ok(app)
    else
      match items[0]
      case Misplaced => Err(WrongArguments)
      case Placed(s) =>
        match ApplyApp(durations, app, s)
        case Err(e) => Err(e)
        case Ok(next) => FoldItems(durations, next, items[1..])
  }

  lemma {:induction false} BlockItems(durations: DurationParser, app: App, block: seq<Segment>, more: seq<Item>)
    ensures FoldItems(durations, app, PlacedItems(block) + more) ==
            match Fold(AppStep(durations), app, block)
            case Err(e) => Err(e)
            case Ok(next) => FoldItems(durations, next, more)
    decreases block
  {
    var items := PlacedItems(block) + more;
    if block == [] {
      assert items == more;
    } else {
      assert items[0] == Placed(block[0]) && items[1..] == PlacedItems(block[1..]) + more;
      match ApplyApp(durations, app, block[0])
      case Err(_) =>
      case Ok(next) => BlockItems(durations, next, block[1..], more);
    }
  }

  lemma {:induction false} TopsAreItems(durations: DurationParser, app: App, tops: seq<Segment>)
    ensures Fold(TopStep(durations), app, tops) == FoldItems(durations, app, Items(tops))
    decreases tops
  {
    if tops != [] {
      if tops[0].args == [] {
        BlockItems(durations, app, BlockOf(tops[0]), Items(tops[1..]));
        match Fold(AppStep(durations), app, BlockOf(tops[0]))
        case Err(_) =>
        case Ok(next) => TopsAreItems(durations, next, tops[1..]);
      } else {
        assert Items(tops)[0] == Misplaced;
      }
    }
  }

  /** A file is refused for its first item, or, when that is an allowed runtime, for its second. */
  lemma ParseAppErrIff(durations: DurationParser, tops: seq<Segment>, e: ParseError)
    ensures Fold(TopStep(durations), EMPTY_APP, tops) == Err(e) <==>
            var items := Items(tops);
            || (items != [] && FirstRefused(durations, items[0], e))
            || (|items| > 1 && items[0].Placed? && RuntimeAllowed(durations, items[0].directive)
                && SecondRefused(items[1], e))
  {
    var items := Items(tops);
    TopsAreItems(durations, EMPTY_APP, tops);
    if items != [] && items[0].Placed? {
      var s := items[0].directive;
      RuntimeErrIff(durations, s, e);
      RuntimeOkIff(durations, s);
      if RuntimeAllowed(durations, s) {
        SecondErr(durations, ApplyApp(durations, EMPTY_APP, s).value, items[1..], e);
      }
    }
  }

  lemma SecondErr(durations: DurationParser, app: App, items: seq<Item>, e: ParseError)
    requires app != EMPTY_APP
    ensures FoldItems(durations, app, items) == Err(e) <==> items != [] && SecondRefused(items[0], e)
  {
  }
}
