/** The public server's configuration: normalisation in place, validation, and the conversion to
    the core's static clients. Durations are nanoseconds, as in Go. */
module ServerConfig {
  import opened Wrappers
  import opened Strings

  const DEFAULT_CONNECTOR_LISTEN := ":8443"
  const SECOND := 1_000_000_000

  datatype EndpointLimits = EndpointLimits(maxStreams: int, maxBandwidthBps: int, streamIdleTimeout: int)

  datatype Endpoint = Endpoint(key: string, token: string, policy: string, maxParallel: int, limits: EndpointLimits)

  datatype Guardrails = Guardrails(
    maxSessions: int, maxStreamsPerSession: int, maxBandwidthBpsPerSession: int,
    minStreamIdleTimeout: int, maxStreamIdleTimeout: int, maxHeaders: int, maxHeaderBytes: int)

  datatype Tuning = Tuning(
    handshakeTimeout: int, streamCopyBufferBytes: int, tunnelKeepAliveInterval: int, tunnelKeepAliveTimeout: int)

  datatype Fields = Fields(
    listen: string, tlsSubject: string, endpoints: seq<Endpoint>, guardrails: Guardrails, tuning: Tuning)

  const ZERO_LIMITS := EndpointLimits(0, 0, 0)
  const ZERO_GUARDRAILS := Guardrails(0, 0, 0, 0, 0, 0, 0)
  const ZERO_TUNING := Tuning(0, 0, 0, 0)

  datatype LimitError = NegativeStreams | NegativeBandwidth | NegativeTimeout | FractionalSeconds

  datatype PlanLimits = PlanLimits(maxStreams: int, maxBandwidthBps: int, streamIdleTimeoutSeconds: int)

  /** The core's form of one endpoint. */
  datatype StaticClient = StaticClient(token: string, endpointKey: string, mode: string, maxParallel: int,
                                       limits: PlanLimits)

  datatype GuardrailFault =
    | NegativeSessions | NegativeStreamsPerSession | NegativeBandwidthPerSession
    | NegativeMinTimeout | NegativeMaxTimeout | MaxBelowMin | NegativeHeaders | NegativeHeaderBytes

  datatype TuningField = Handshake | CopyBuffer | KeepAliveInterval | KeepAliveTimeout

  datatype ServerError =
    | ListenRequired | SubjectRequired | EndpointsRequired | EndpointsWithProvider
    | KeyRequired(index: nat) | TokenRequired(index: nat) | DuplicateKey(index: nat)
    | BadLimits(index: nat, error: LimitError)
    | BadStaticClient(index: nat, error: LimitError) | RejectedByCore
    | BadGuardrails(fault: GuardrailFault) | BadTuning(field: TuningField)

  function PlanLimitsOf(l: EndpointLimits): Result<PlanLimits, LimitError> {
    if l.streamIdleTimeout > 0 && l.streamIdleTimeout % SECOND != 0 then Err(FractionalSeconds)
    else
      var seconds := if l.streamIdleTimeout > 0 then l.streamIdleTimeout / SECOND else 0;
      Ok(PlanLimits(l.maxStreams, l.maxBandwidthBps, seconds))
  }

  function ValidateLimits(l: EndpointLimits): Option<LimitError> {
    if l.maxStreams < 0 then Some(NegativeStreams)
    else if l.maxBandwidthBps < 0 then Some(NegativeBandwidth)
    else if l.streamIdleTimeout < 0 then Some(NegativeTimeout)
    else match PlanLimitsOf(l) case Err(e) => Some(e) case Ok(_) => None
  }

  /** Valid limits are not negative and their timeout is a whole number of seconds, the very number
      the plan carries. */
  lemma ValidLimitsIff(l: EndpointLimits)
    ensures ValidateLimits(l) == None <==>
            && l.maxStreams >= 0 && l.maxBandwidthBps >= 0 && l.streamIdleTimeout >= 0
            && exists seconds :: IsSeconds(l.streamIdleTimeout, seconds)
    ensures ValidateLimits(l) == None ==>
              PlanLimitsOf(l).Ok? && IsSeconds(l.streamIdleTimeout, PlanLimitsOf(l).value.streamIdleTimeoutSeconds)
  {
    if l.streamIdleTimeout >= 0 {
      if seconds :| IsSeconds(l.streamIdleTimeout, seconds) {
        assert l.streamIdleTimeout % SECOND == 0;
      }
      if l.streamIdleTimeout % SECOND == 0 {
        assert IsSeconds(l.streamIdleTimeout, l.streamIdleTimeout / SECOND);
      }
    }
  }

  ghost predicate IsSeconds(duration: int, seconds: int) {
    duration == seconds * 1_000_000_000
  }

  /** The limits error is the first check, in this order, that fails. */
  lemma LimitErrorIff(l: EndpointLimits, e: LimitError)
    ensures ValidateLimits(l) == Some(e) <==>
            match e
            case NegativeStreams => l.maxStreams < 0
            case NegativeBandwidth => l.maxStreams >= 0 && l.maxBandwidthBps < 0
            case NegativeTimeout => l.maxStreams >= 0 && l.maxBandwidthBps >= 0 && l.streamIdleTimeout < 0
            case FractionalSeconds =>
              && l.maxStreams >= 0 && l.maxBandwidthBps >= 0 && l.streamIdleTimeout >= 0
              && !exists seconds :: IsSeconds(l.streamIdleTimeout, seconds)
  {
    ValidLimitsIff(l);
  }

  predicate MaxTimeoutBelowMin(g: Guardrails) {
    0 < g.maxStreamIdleTimeout < g.minStreamIdleTimeout
  }

  predicate ValidGuardrails(g: Guardrails) {
    && g.maxSessions >= 0 && g.maxStreamsPerSession >= 0 && g.maxBandwidthBpsPerSession >= 0
    && g.minStreamIdleTimeout >= 0 && g.maxStreamIdleTimeout >= 0 && !MaxTimeoutBelowMin(g)
    && g.maxHeaders >= 0 && g.maxHeaderBytes >= 0
  }

  /** The first guardrail check that fails. */
  function CheckGuardrails(g: Guardrails): Option<GuardrailFault> {
    if g.maxSessions < 0 then Some(NegativeSessions)
    else if g.maxStreamsPerSession < 0 then Some(NegativeStreamsPerSession)
    else if g.maxBandwidthBpsPerSession < 0 then Some(NegativeBandwidthPerSession)
    else if g.minStreamIdleTimeout < 0 then Some(NegativeMinTimeout)
    else if g.maxStreamIdleTimeout < 0 then Some(NegativeMaxTimeout)
    else if g.minStreamIdleTimeout > 0 && g.maxStreamIdleTimeout > 0
      && g.maxStreamIdleTimeout < g.minStreamIdleTimeout then
      Some(MaxBelowMin)
    else if g.maxHeaders < 0 then Some(NegativeHeaders)
    else if g.maxHeaderBytes < 0 then Some(NegativeHeaderBytes)
    else None
  }

  predicate HasFault(g: Guardrails, fault: GuardrailFault) {
    match fault
    case NegativeSessions => g.maxSessions < 0
    case NegativeStreamsPerSession => g.maxStreamsPerSession < 0
    case NegativeBandwidthPerSession => g.maxBandwidthBpsPerSession < 0
    case NegativeMinTimeout => g.minStreamIdleTimeout < 0
    case NegativeMaxTimeout => g.maxStreamIdleTimeout < 0
    case MaxBelowMin => MaxTimeoutBelowMin(g)
    case NegativeHeaders => g.maxHeaders < 0
    case NegativeHeaderBytes => g.maxHeaderBytes < 0
  }

  function FaultRank(fault: GuardrailFault): nat {
    match fault
    case NegativeSessions => 0
    case NegativeStreamsPerSession => 1
    case NegativeBandwidthPerSession => 2
    case NegativeMinTimeout => 3
    case NegativeMaxTimeout => 4
    case MaxBelowMin => 5
    case NegativeHeaders => 6
    case NegativeHeaderBytes => 7
  }

  /** The fault reported is there, and none that is checked earlier. */
  predicate IsFirstFault(g: Guardrails, fault: GuardrailFault) {
    HasFault(g, fault) && forall f: GuardrailFault :: FaultRank(f) < FaultRank(fault) ==> !HasFault(g, f)
  }

  lemma CheckGuardrailsIff(g: Guardrails, fault: GuardrailFault)
    ensures CheckGuardrails(g) == Some(fault) <==> IsFirstFault(g, fault)
    ensures CheckGuardrails(g) == None <==> ValidGuardrails(g)
  {
    if CheckGuardrails(g).Some? {
      var first := CheckGuardrails(g).value;
      assert HasFault(g, first);
      assert IsFirstFault(g, first);
    }
  }

  predicate ValidTuning(t: Tuning) {
    && t.handshakeTimeout >= 0 && t.streamCopyBufferBytes >= 0
    && t.tunnelKeepAliveInterval >= 0 && t.tunnelKeepAliveTimeout >= 0
  }

  /** The first negative tuning value. */
  function CheckTuning(t: Tuning): Option<TuningField> {
    if t.handshakeTimeout < 0 then Some(Handshake)
    else if t.streamCopyBufferBytes < 0 then Some(CopyBuffer)
    else if t.tunnelKeepAliveInterval < 0 then Some(KeepAliveInterval)
    else if t.tunnelKeepAliveTimeout < 0 then Some(KeepAliveTimeout)
    else None
  }

  function TuningValue(t: Tuning, field: TuningField): int {
    match field
    case Handshake => t.handshakeTimeout
    case CopyBuffer => t.streamCopyBufferBytes
    case KeepAliveInterval => t.tunnelKeepAliveInterval
    case KeepAliveTimeout => t.tunnelKeepAliveTimeout
  }

  function TuningRank(field: TuningField): nat {
    match field
    case Handshake => 0
    case CopyBuffer => 1
    case KeepAliveInterval => 2
    case KeepAliveTimeout => 3
  }

  /** The field reported is negative, and none that is checked earlier. */
  predicate IsFirstNegative(t: Tuning, field: TuningField) {
    TuningValue(t, field) < 0 && forall f: TuningField :: TuningRank(f) < TuningRank(field) ==> TuningValue(t, f) >= 0
  }

  lemma CheckTuningIff(t: Tuning, field: TuningField)
    ensures CheckTuning(t) == Some(field) <==> IsFirstNegative(t, field)
    ensures CheckTuning(t) == None <==> ValidTuning(t)
  {
    if CheckTuning(t).Some? {
      assert IsFirstNegative(t, CheckTuning(t).value);
    }
  }

  function NormalizedEndpoint(e: Endpoint): Endpoint {
    e.(key := TrimSpace(e.key), token := TrimSpace(e.token), policy := TrimSpace(e.policy))
  }

  function NormalizedEndpoints(es: seq<Endpoint>): seq<Endpoint> {
    seq(|es|, i requires 0 <= i < |es| => NormalizedEndpoint(es[i]))
  }

  function Normalized(s: Fields): Fields {
    var listen := TrimSpace(s.listen);
    s.(listen := if listen == "" then DEFAULT_CONNECTOR_LISTEN else listen,
       tlsSubject := TrimSpace(s.tlsSubject),
       endpoints := NormalizedEndpoints(s.endpoints))
  }

  /** What normalisation does to each configured field. */
  predicate IsNormalizedEndpoint(n: Endpoint, e: Endpoint) {
    && n.key == TrimSpace(e.key) && n.token == TrimSpace(e.token) && n.policy == TrimSpace(e.policy)
    && n.maxParallel == e.maxParallel && n.limits == e.limits
  }

  predicate IsNormalized(n: Fields, s: Fields) {
    && n.listen == (if IsBlank(s.listen) then ":8443" else TrimSpace(s.listen))
    && n.tlsSubject == TrimSpace(s.tlsSubject)
    && |n.endpoints| == |s.endpoints|
    && (forall i :: 0 <= i < |s.endpoints| ==> IsNormalizedEndpoint(n.endpoints[i], s.endpoints[i]))
    && n.guardrails == s.guardrails && n.tuning == s.tuning
  }

  /** The normalised configuration is the configured one, field by field. */
  lemma NormalizedIff(n: Fields, s: Fields)
    ensures n == Normalized(s) <==> IsNormalized(n, s)
  {
    BlankIff(s.listen);
    if IsNormalized(n, s) {
      assert n.endpoints == NormalizedEndpoints(s.endpoints);
    }
  }

  lemma NormalizedIdempotent(s: Fields)
    ensures Normalized(Normalized(s)) == Normalized(s)
  {
    assert IsTrimmed(DEFAULT_CONNECTOR_LISTEN);
    assert NormalizedEndpoints(NormalizedEndpoints(s.endpoints)) == NormalizedEndpoints(s.endpoints);
  }

  // Static clients.

  function StaticClientOf(e: Endpoint): Result<StaticClient, LimitError> {
    match PlanLimitsOf(e.limits)
    case Err(error) => Err(error)
    case Ok(limits) =>
      Ok(StaticClient(TrimSpace(e.token), TrimSpace(e.key), TrimSpace(e.policy), e.maxParallel, limits))
  }

  /** c is e in the core's form: the same key, token, policy and limits, the timeout in seconds. */
  ghost predicate Converts(e: Endpoint, c: StaticClient) {
    && c.endpointKey == TrimSpace(e.key) && c.token == TrimSpace(e.token) && c.mode == TrimSpace(e.policy)
    && c.maxParallel == e.maxParallel
    && c.limits.maxStreams == e.limits.maxStreams && c.limits.maxBandwidthBps == e.limits.maxBandwidthBps
    && (if e.limits.streamIdleTimeout > 0
        then IsSeconds(e.limits.streamIdleTimeout, c.limits.streamIdleTimeoutSeconds)
        else c.limits.streamIdleTimeoutSeconds == 0)
  }

  lemma ConvertsIff(e: Endpoint, c: StaticClient)
    ensures StaticClientOf(e) == Ok(c) <==> Converts(e, c)
    ensures StaticClientOf(e).Err? ==> StaticClientOf(e) == Err(FractionalSeconds)
    ensures StaticClientOf(e).Err? <==>
            e.limits.streamIdleTimeout > 0 && !exists seconds :: IsSeconds(e.limits.streamIdleTimeout, seconds)
  {
    var d := e.limits.streamIdleTimeout;
    if d > 0 {
      if seconds :| IsSeconds(d, seconds) {
        assert d % SECOND == 0 && d / SECOND == seconds;
      }
      if d % SECOND == 0 {
        assert IsSeconds(d, d / SECOND);
      }
    }
  }

  /** clients lists the conversions of the endpoints, in order. */
  ghost predicate AreStaticClientsOf(clients: seq<StaticClient>, es: seq<Endpoint>) {
    && |clients| == |es|
    && forall i :: 0 <= i < |es| ==> Converts(es[i], clients[i])
  }

  /** Endpoint i is complete, its key is new and its limits are valid. */
  ghost predicate EndpointOk(es: seq<Endpoint>, i: nat)
    requires i < |es|
  {
    && es[i].key != "" && es[i].token != ""
    && (forall j :: 0 <= j < i ==> es[j].key != es[i].key)
    && ValidateLimits(es[i].limits) == None
  }

  ghost predicate RepeatsKey(es: seq<Endpoint>, i: nat)
    requires i < |es|
  {
    exists j :: 0 <= j < i && es[j].key == es[i].key
  }

  /** error is the first check that endpoint i fails. */
  ghost predicate IsErrorOf(es: seq<Endpoint>, i: nat, error: ServerError)
    requires i < |es|
  {
    match error
    case KeyRequired(index) => index == i && es[i].key == ""
    case TokenRequired(index) => index == i && es[i].key != "" && es[i].token == ""
    case DuplicateKey(index) => index == i && es[i].key != "" && es[i].token != "" && RepeatsKey(es, i)
    case BadLimits(index, e) =>
      && index == i && es[i].key != "" && es[i].token != "" && !RepeatsKey(es, i)
      && ValidateLimits(es[i].limits) == Some(e)
    case _ => false
  }

  ghost predicate IsLeastEndpointError(es: seq<Endpoint>, error: ServerError) {
    exists i :: 0 <= i < |es| && IsErrorOf(es, i, error) && forall j :: 0 <= j < i ==> EndpointOk(es, j)
  }

  lemma LeastErrorIsOne(es: seq<Endpoint>, error: ServerError)
    requires IsLeastEndpointError(es, error)
    ensures exists i :: 0 <= i < |es| && !EndpointOk(es, i)
  {
    var i :| 0 <= i < |es| && IsErrorOf(es, i, error);
    assert !EndpointOk(es, i);
  }

  /** What a caller must supply: the declarative form of a successful validation. accepts is the
      core's own check of the converted clients. */
  ghost predicate Acceptable(s: Fields, providerConfigured: bool, accepts: seq<StaticClient> -> bool) {
    && TrimSpace(s.tlsSubject) != ""
    && (s.endpoints == [] <==> providerConfigured)
    && (forall i :: 0 <= i < |s.endpoints| ==> EndpointOk(NormalizedEndpoints(s.endpoints), i))
    && (!providerConfigured ==> CoreAccepts(NormalizedEndpoints(s.endpoints), accepts))
    && ValidGuardrails(s.guardrails) && ValidTuning(s.tuning)
  }

  ghost predicate IsConvertible(e: Endpoint) {
    exists c :: Converts(e, c)
  }

  /** The error of the least endpoint that does not convert, or the core's refusal of them all. */
  ghost predicate IsStaticClientsError(es: seq<Endpoint>, accepts: seq<StaticClient> -> bool, error: ServerError) {
    match error
    case BadStaticClient(index, e) =>
      && index < |es| && e == FractionalSeconds
      && !IsConvertible(es[index])
      && (forall i :: 0 <= i < index ==> IsConvertible(es[i]))
    case RejectedByCore => exists clients :: AreStaticClientsOf(clients, es) && !accepts(clients)
    case _ => false
  }

  predicate ConnectorOk(s: Fields, providerConfigured: bool) {
    s.tlsSubject != "" && (s.endpoints == [] <==> providerConfigured)
  }

  ghost predicate EndpointsOk(s: Fields, providerConfigured: bool) {
    ConnectorOk(s, providerConfigured) && forall i :: 0 <= i < |s.endpoints| ==> EndpointOk(s.endpoints, i)
  }

  ghost predicate CoreOk(s: Fields, providerConfigured: bool, accepts: seq<StaticClient> -> bool) {
    EndpointsOk(s, providerConfigured) && (providerConfigured || CoreAccepts(s.endpoints, accepts))
  }

  /** error is what validation reports for the normalised configuration s: it names the first check
      that fails, and all the checks before that one succeed. */
  ghost predicate IsFirstError(s: Fields, providerConfigured: bool, accepts: seq<StaticClient> -> bool,
                               error: ServerError)
  {
    match error
    case SubjectRequired => s.tlsSubject == ""
    case EndpointsRequired => s.tlsSubject != "" && s.endpoints == [] && !providerConfigured
    case EndpointsWithProvider => s.tlsSubject != "" && s.endpoints != [] && providerConfigured
    case RejectedByCore =>
      EndpointsOk(s, providerConfigured) && !providerConfigured && !CoreAccepts(s.endpoints, accepts)
    case BadGuardrails(fault) => CoreOk(s, providerConfigured, accepts) && IsFirstFault(s.guardrails, fault)
    case BadTuning(field) =>
      CoreOk(s, providerConfigured, accepts) && ValidGuardrails(s.guardrails) && IsFirstNegative(s.tuning, field)
    case _ => ConnectorOk(s, providerConfigured) && IsLeastEndpointError(s.endpoints, error)
  }

  ghost predicate CoreAccepts(es: seq<Endpoint>, accepts: seq<StaticClient> -> bool) {
    exists clients :: AreStaticClientsOf(clients, es) && accepts(clients)
  }

  class Server {
    var listen: string
    var tlsSubject: string
    var endpoints: seq<Endpoint>
    var guardrails: Guardrails
    var tuning: Tuning

    constructor (s: Fields)
      ensures Value() == s
    {
      listen, tlsSubject, endpoints, guardrails, tuning := s.listen, s.tlsSubject, s.endpoints, s.guardrails, s.tuning;
    }

    function Value(): Fields
      reads this
    {
      Fields(listen, tlsSubject, endpoints, guardrails, tuning)
    }

    method Normalize()
      modifies this
      ensures Value() == Normalized(old(Value()))
      ensures IsNormalized(Value(), old(Value()))
    {
      NormalizedIff(Normalized(Value()), Value());
      listen := TrimSpace(listen);
      tlsSubject := TrimSpace(tlsSubject);
      if listen == "" {
        listen := DEFAULT_CONNECTOR_LISTEN;
      }
      for i := 0 to |endpoints|
        modifies this`endpoints
        invariant |endpoints| == |old(endpoints)|
        invariant forall k :: 0 <= k < i ==> endpoints[k] == NormalizedEndpoint(old(endpoints)[k])
        invariant forall k :: i <= k < |endpoints| ==> endpoints[k] == old(endpoints)[k]
      {
        endpoints := endpoints[i := NormalizedEndpoint(endpoints[i])];
      }
      assert endpoints == NormalizedEndpoints(old(endpoints));
    }

    method StaticClients(accepts: seq<StaticClient> -> bool) returns (r: Result<seq<StaticClient>, ServerError>)
      ensures r.Ok? ==> AreStaticClientsOf(r.value, endpoints) && accepts(r.value)
      ensures r.Err? ==> IsStaticClientsError(endpoints, accepts, r.error)
      ensures r.Err? ==> forall clients :: AreStaticClientsOf(clients, endpoints) ==> !accepts(clients)
    {
      var clients := [];
      for index := 0 to |endpoints|
        invariant |clients| == index
        invariant forall i :: 0 <= i < index ==> Converts(endpoints[i], clients[i])
        invariant forall i :: 0 <= i < index ==> IsConvertible(endpoints[i])
      {
        var converted := StaticClientOf(endpoints[index]);
        if converted.Err? {
          NothingConverts(endpoints[index]);
          return Err(BadStaticClient(index, converted.error));
        }
        ConvertsIff(endpoints[index], converted.value);
        clients := clients + [converted.value];
      }
      if !accepts(clients) {
        StaticClientsUnique(clients, endpoints);
        return Err(RejectedByCore);
      }
      return Ok(clients);
    }

    /** The checks on the endpoints, in order; seen holds the keys of the earlier ones. */
    method ValidateEndpoints() returns (error: Option<ServerError>)
      ensures error == None ==> forall i :: 0 <= i < |endpoints| ==> EndpointOk(endpoints, i)
      ensures error.Some? ==> IsLeastEndpointError(endpoints, error.value)
    {
      var seen: set<string> := {};
      for index := 0 to |endpoints|
        invariant forall key :: key in seen <==> exists j :: 0 <= j < index && endpoints[j].key == key
        invariant forall i :: 0 <= i < index ==> EndpointOk(endpoints, i)
      {
        var endpoint := endpoints[index];
        if endpoint.key == "" {
          error := Some(KeyRequired(index));
        } else if endpoint.token == "" {
          error := Some(TokenRequired(index));
        } else if endpoint.key in seen {
          error := Some(DuplicateKey(index));
        } else {
          seen := seen + {endpoint.key};
          var limits := ValidateLimits(endpoint.limits);
          error := if limits.Some? then Some(BadLimits(index, limits.value)) else None;
        }
        if error.Some? {
          assert IsErrorOf(endpoints, index, error.value);
        } else {
          assert EndpointOk(endpoints, index);
        }
        if error.Some? {
          return;
        }
      }
      return None;
    }

    /** Validation succeeds exactly on the acceptable configurations, and always leaves the
        normalised one. */
    method ValidateWithProvider(providerConfigured: bool, accepts: seq<StaticClient> -> bool)
      returns (error: Option<ServerError>)
      modifies this
      ensures Value() == Normalized(old(Value())) && IsNormalized(Value(), old(Value()))
      ensures error == None <==> Acceptable(old(Value()), providerConfigured, accepts)
      ensures error.Some? ==> IsFirstError(Value(), providerConfigured, accepts, error.value)
    {
      Normalize();
      if TrimSpace(listen) == "" {
        return Some(ListenRequired);
      }
      if TrimSpace(tlsSubject) == "" {
        return Some(SubjectRequired);
      }
      if |endpoints| == 0 {
        if !providerConfigured {
          return Some(EndpointsRequired);
        }
      } else if providerConfigured {
        return Some(EndpointsWithProvider);
      }
      error := ValidateEndpoints();
      if error.Some? {
        LeastErrorIsOne(endpoints, error.value);
        return;
      }
      if !providerConfigured {
        var converted := StaticClients(accepts);
        if converted.Err? {
          OnlyTheCoreRefuses(endpoints, accepts, converted.error);
          return Some(converted.error);
        }
      }
      var fault := CheckGuardrails(guardrails);
      CheckGuardrailsIff(guardrails, if fault.Some? then fault.value else NegativeSessions);
      if fault.Some? {
        return Some(BadGuardrails(fault.value));
      }
      var field := CheckTuning(tuning);
      CheckTuningIff(tuning, if field.Some? then field.value else Handshake);
      if field.Some? {
        return Some(BadTuning(field.value));
      }
      return None;
    }
  }

  /** Endpoints with valid limits all convert. */
  lemma OnlyTheCoreRefuses(es: seq<Endpoint>, accepts: seq<StaticClient> -> bool, error: ServerError)
    requires forall i :: 0 <= i < |es| ==> EndpointOk(es, i)
    requires IsStaticClientsError(es, accepts, error)
    ensures error == RejectedByCore && !CoreAccepts(es, accepts)
  {
    forall i | 0 <= i < |es|
      ensures IsConvertible(es[i])
    {
      assert EndpointOk(es, i);
      ValidLimitsIff(es[i].limits);
      ConvertsIff(es[i], StaticClientOf(es[i]).value);
    }
    var clients :| AreStaticClientsOf(clients, es) && !accepts(clients);
    StaticClientsUnique(clients, es);
  }

  lemma NothingConverts(e: Endpoint)
    requires StaticClientOf(e).Err?
    ensures StaticClientOf(e) == Err(FractionalSeconds) && !IsConvertible(e)
  {
    forall c | Converts(e, c)
      ensures false
    {
      ConvertsIff(e, c);
    }
    ConvertsIff(e, StaticClient("", "", "", 0, PlanLimits(0, 0, 0)));
  }

  lemma StaticClientsUnique(clients: seq<StaticClient>, es: seq<Endpoint>)
    requires AreStaticClientsOf(clients, es)
    ensures forall others :: AreStaticClientsOf(others, es) ==> others == clients
  {
    forall others | AreStaticClientsOf(others, es)
      ensures others == clients
    {
      forall i | 0 <= i < |es|
        ensures others[i] == clients[i]
      {
        ConvertsIff(es[i], others[i]);
        ConvertsIff(es[i], clients[i]);
      }
    }
  }

  /** After a successful static validation every key and token is trimmed and non-empty, the keys
      are pairwise distinct and every timeout equals its converted seconds exactly. */
  lemma AcceptableIsSound(s: Fields, accepts: seq<StaticClient> -> bool)
    requires Acceptable(s, false, accepts)
    ensures var es := Normalized(s).endpoints;
            && es != []
            && (forall i :: 0 <= i < |es| ==>
                  && es[i].key != "" && IsTrimmed(es[i].key) && es[i].token != "" && IsTrimmed(es[i].token)
                  && PlanLimitsOf(es[i].limits).Ok?
                  && IsSeconds(es[i].limits.streamIdleTimeout,
                               PlanLimitsOf(es[i].limits).value.streamIdleTimeoutSeconds))
            && (forall i, j :: 0 <= i < j < |es| ==> es[i].key != es[j].key)
  {
    var es := Normalized(s).endpoints;
    forall i | 0 <= i < |es|
      ensures es[i].key != "" && IsTrimmed(es[i].key) && es[i].token != "" && IsTrimmed(es[i].token)
      ensures PlanLimitsOf(es[i].limits).Ok?
      ensures IsSeconds(es[i].limits.streamIdleTimeout, PlanLimitsOf(es[i].limits).value.streamIdleTimeoutSeconds)
    {
      assert EndpointOk(es, i) && es[i] == NormalizedEndpoint(s.endpoints[i]);
      ValidLimitsIff(es[i].limits);
    }
    assert forall i, j :: 0 <= i < j < |es| ==> (EndpointOk(es, j) ==> es[i].key != es[j].key);
  }

  /** Validating a second time accepts the same configurations and changes nothing. */
  lemma RevalidationIsStable(s: Fields, providerConfigured: bool, accepts: seq<StaticClient> -> bool)
    ensures Normalized(Normalized(s)) == Normalized(s)
    ensures Acceptable(Normalized(s), providerConfigured, accepts) <==> Acceptable(s, providerConfigured, accepts)
  {
    NormalizedIdempotent(s);
  }

  /** Building a server: validation, and then the conversion of the same configuration again, which
      cannot fail and yields the endpoints in order. */
  method NewStaticServer(server: Server, accepts: seq<StaticClient> -> bool)
    returns (r: Result<seq<StaticClient>, ServerError>)
    modifies server
    ensures server.Value() == Normalized(old(server.Value())) && IsNormalized(server.Value(), old(server.Value()))
    ensures r.Ok? <==> Acceptable(old(server.Value()), false, accepts)
    ensures r.Ok? ==> AreStaticClientsOf(r.value, server.endpoints) && accepts(r.value)
  {
    var error := server.ValidateWithProvider(false, accepts);
    if error.Some? {
      return Err(error.value);
    }
    r := server.StaticClients(accepts);
  }

  /** Each converted client carries its endpoint as it was configured, up to surrounding spaces, its
      timeout in seconds, and no two clients have the same key. */
  lemma StaticClientsKeepEndpoints(s: Fields, clients: seq<StaticClient>, accepts: seq<StaticClient> -> bool)
    requires Acceptable(s, false, accepts) && AreStaticClientsOf(clients, Normalized(s).endpoints)
    ensures |clients| == |s.endpoints|
    ensures forall i :: 0 <= i < |clients| ==> CarriesEndpoint(clients[i], s.endpoints[i])
    ensures forall i, j :: 0 <= i < j < |clients| ==> clients[i].endpointKey != clients[j].endpointKey
  {
    var es := Normalized(s).endpoints;
    AcceptableIsSound(s, accepts);
    NormalizedIff(Normalized(s), s);
    forall i | 0 <= i < |es|
      ensures CarriesEndpoint(clients[i], s.endpoints[i]) && clients[i].endpointKey == es[i].key
    {
      assert Converts(es[i], clients[i]) && IsNormalizedEndpoint(es[i], s.endpoints[i]);
      assert EndpointOk(es, i);
      ValidLimitsIff(es[i].limits);
    }
  }

  ghost predicate CarriesEndpoint(c: StaticClient, e: Endpoint) {
    && c.endpointKey == TrimSpace(e.key) && c.token == TrimSpace(e.token) && c.mode == TrimSpace(e.policy)
    && c.maxParallel == e.maxParallel
    && c.limits.maxStreams == e.limits.maxStreams && c.limits.maxBandwidthBps == e.limits.maxBandwidthBps
    && IsSeconds(e.limits.streamIdleTimeout, c.limits.streamIdleTimeoutSeconds)
  }

  /** The acceptable configurations, told from the fields as they are configured. */
  lemma AcceptableIff(s: Fields, providerConfigured: bool, accepts: seq<StaticClient> -> bool)
    ensures Acceptable(s, providerConfigured, accepts) <==>
            && !IsBlank(s.tlsSubject) && (s.endpoints == [] <==> providerConfigured)
            && (forall i :: 0 <= i < |s.endpoints| ==> ConfiguredWell(s.endpoints, i))
            && (!providerConfigured ==> CoreAccepts(s.endpoints, accepts))
            && ValidGuardrails(s.guardrails) && ValidTuning(s.tuning)
  {
    var es := NormalizedEndpoints(s.endpoints);
    BlankIff(s.tlsSubject);
    forall i | 0 <= i < |es|
      ensures EndpointOk(es, i) <==> ConfiguredWell(s.endpoints, i)
    {
      ConfiguredWellIff(s.endpoints, i);
    }
    SameConversions(s.endpoints);
    assert CoreAccepts(es, accepts) <==> CoreAccepts(s.endpoints, accepts);
  }

  /** Endpoint i has a key that no earlier one has, a token and valid limits. */
  ghost predicate ConfiguredWell(es: seq<Endpoint>, i: nat)
    requires i < |es|
  {
    && !IsBlank(es[i].key) && !IsBlank(es[i].token)
    && (forall j :: 0 <= j < i ==> TrimSpace(es[j].key) != TrimSpace(es[i].key))
    && es[i].limits.maxStreams >= 0 && es[i].limits.maxBandwidthBps >= 0 && es[i].limits.streamIdleTimeout >= 0
    && exists seconds :: IsSeconds(es[i].limits.streamIdleTimeout, seconds)
  }

  lemma ConfiguredWellIff(es: seq<Endpoint>, i: nat)
    requires i < |es|
    ensures EndpointOk(NormalizedEndpoints(es), i) <==> ConfiguredWell(es, i)
  {
    var ns := NormalizedEndpoints(es);
    assert forall j :: 0 <= j < |es| ==> ns[j].key == TrimSpace(es[j].key);
    assert ns[i].token == TrimSpace(es[i].token) && ns[i].limits == es[i].limits;
    BlankIff(es[i].key);
    BlankIff(es[i].token);
    ValidLimitsIff(es[i].limits);
    assert (forall j :: 0 <= j < i ==> ns[j].key != ns[i].key) <==>
           (forall j :: 0 <= j < i ==> TrimSpace(es[j].key) != TrimSpace(es[i].key));
  }

  lemma SameConversions(es: seq<Endpoint>)
    ensures forall clients :: AreStaticClientsOf(clients, NormalizedEndpoints(es)) <==> AreStaticClientsOf(clients, es)
  {
    var ns := NormalizedEndpoints(es);
    forall i, c | 0 <= i < |es|
      ensures Converts(ns[i], c) <==> Converts(es[i], c)
    {
      assert ns[i] == NormalizedEndpoint(es[i]);
    }
  }
}
