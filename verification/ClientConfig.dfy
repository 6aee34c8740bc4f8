/** The private client's configuration, its validation in place, and the identity under which
    the registry shares a running client. */
module ClientConfig {
  import opened Wrappers
  import opened Strings
  import opened ConnectAddress

  datatype Fields = Fields(
    connect: string, token: string, forward: string,
    tlsCaFile: string, tlsServerName: string, tlsInsecureSkipVerify: bool)

  datatype Identity = Identity(
    connect: string, forward: string, token: string,
    tlsCaFile: string, tlsServerName: string, tlsInsecureSkipVerify: bool)

  datatype ClientError = ConnectRequired | TokenRequired | ForwardRequired

  function Normalized(c: Fields): Fields {
    Fields(NormalizeConnectAddress(c.connect), TrimSpace(c.token), TrimSpace(c.forward),
           TrimSpace(c.tlsCaFile), TrimSpace(c.tlsServerName), c.tlsInsecureSkipVerify)
  }

  /** The first required field that is blank. */
  function Missing(c: Fields): Option<ClientError> {
    if TrimSpace(c.connect) == "" then Some(ConnectRequired)
    else if TrimSpace(c.token) == "" then Some(TokenRequired)
    else if TrimSpace(c.forward) == "" then Some(ForwardRequired)
    else None
  }

  /** What normalisation does to each configured field. */
  ghost predicate IsNormalized(n: Fields, c: Fields) {
    && NormalizesTo(c.connect, n.connect)
    && n.token == TrimSpace(c.token) && n.forward == TrimSpace(c.forward)
    && n.tlsCaFile == TrimSpace(c.tlsCaFile) && n.tlsServerName == TrimSpace(c.tlsServerName)
    && n.tlsInsecureSkipVerify == c.tlsInsecureSkipVerify
  }

  /** The normalised configuration is the configured one, field by field. */
  lemma NormalizedIff(n: Fields, c: Fields)
    ensures n == Normalized(c) <==> IsNormalized(n, c)
  {
    NormalizeYieldsIff(c.connect, n.connect);
  }

  /** error names a required field that is blank, and the ones checked before it are not. */
  predicate IsMissing(c: Fields, error: ClientError) {
    match error
    case ConnectRequired => IsBlank(c.connect)
    case TokenRequired => !IsBlank(c.connect) && IsBlank(c.token)
    case ForwardRequired => !IsBlank(c.connect) && !IsBlank(c.token) && IsBlank(c.forward)
  }

  predicate IsComplete(c: Fields) {
    !IsBlank(c.connect) && !IsBlank(c.token) && !IsBlank(c.forward)
  }

  lemma MissingIff(c: Fields, error: ClientError)
    ensures Missing(c) == Some(error) <==> IsMissing(c, error)
    ensures Missing(c) == None <==> IsComplete(c)
  {
    BlankIff(c.connect);
    BlankIff(c.token);
    BlankIff(c.forward);
  }

  /** The identity a configuration is shared under, field by field. */
  ghost predicate Identifies(id: Identity, c: Fields) {
    && NormalizesTo(c.connect, id.connect)
    && id.token == TrimSpace(c.token) && id.forward == TrimSpace(c.forward)
    && id.tlsCaFile == TrimSpace(c.tlsCaFile) && id.tlsServerName == TrimSpace(c.tlsServerName)
    && id.tlsInsecureSkipVerify == c.tlsInsecureSkipVerify
  }

  function IdentityOf(n: Fields): Identity {
    Identity(n.connect, n.forward, n.token, n.tlsCaFile, n.tlsServerName, n.tlsInsecureSkipVerify)
  }

  /** The pointer-shared configuration object: the lease and the client it starts hold the same one. */
  class Client {
    var connect: string
    var token: string
    var forward: string
    var tlsCaFile: string
    var tlsServerName: string
    var tlsInsecureSkipVerify: bool

    constructor (c: Fields)
      ensures Value() == c
    {
      connect, token, forward := c.connect, c.token, c.forward;
      tlsCaFile, tlsServerName, tlsInsecureSkipVerify := c.tlsCaFile, c.tlsServerName, c.tlsInsecureSkipVerify;
    }

    function Value(): Fields
      reads this
    {
      Fields(connect, token, forward, tlsCaFile, tlsServerName, tlsInsecureSkipVerify)
    }

    method Normalize()
      modifies this
      ensures Value() == Normalized(old(Value())) && IsNormalized(Value(), old(Value()))
    {
      NormalizedIff(Normalized(Value()), Value());
      connect := NormalizeConnectAddress(connect);
      token := TrimSpace(token);
      forward := TrimSpace(forward);
      tlsCaFile := TrimSpace(tlsCaFile);
      tlsServerName := TrimSpace(tlsServerName);
    }

    /** Normalises in place and then checks; which field is missing depends only on the
        configuration as it was given. */
    method Validate() returns (error: Option<ClientError>)
      modifies this
      ensures Value() == Normalized(old(Value())) && IsNormalized(Value(), old(Value()))
      ensures error == Missing(old(Value()))
      ensures match error case Some(e) => IsMissing(old(Value()), e) case None => IsComplete(old(Value()))
    {
      NormalizeKeepsMissing(Value());
      MissingIff(Value(), if Missing(Value()).Some? then Missing(Value()).value else ConnectRequired);
      Normalize();
      if TrimSpace(connect) == "" {
        return Some(ConnectRequired);
      }
      if TrimSpace(token) == "" {
        return Some(TokenRequired);
      }
      if TrimSpace(forward) == "" {
        return Some(ForwardRequired);
      }
      return None;
    }
  }

  /** normalizedClientRuntimeIdentity: a private validated copy and its identity. */
  method NormalizedIdentity(cfg: Client) returns (r: Result<Identity, ClientError>, normalized: Client)
    ensures fresh(normalized) && normalized.Value() == Normalized(cfg.Value())
    ensures r == match Missing(cfg.Value())
                 case Some(e) => Err(e)
                 case None => Ok(IdentityOf(Normalized(cfg.Value())))
    ensures match r case Err(e) => IsMissing(cfg.Value(), e)
                    case Ok(id) => IsComplete(cfg.Value()) && Identifies(id, cfg.Value())
  {
    normalized := new Client(cfg.Value());
    var error := normalized.Validate();
    if error.Some? {
      return Err(error.value), normalized;
    }
    r := Ok(IdentityOf(normalized.Value()));
  }

  /** Normalising neither hides nor creates a missing field, so the validation that runs again
      when the client is built inside the factory cannot fail. */
  lemma NormalizeKeepsMissing(c: Fields)
    ensures Missing(Normalized(c)) == Missing(c)
  {
    NormalizeBlankIff(c.connect);
  }

  /** The client's second validation rewrites the shared configuration. What it then dials is the
      address in its identity exactly when the configured address is stable; the other fields
      always agree. */
  lemma RunningClientMatchesIdentityIff(c: Fields)
    ensures IdentityOf(Normalized(Normalized(c))) == IdentityOf(Normalized(c)) <==> StableAddress(TrimSpace(c.connect))
    ensures IdentityOf(Normalized(Normalized(c))).(connect := NormalizeConnectAddress(c.connect)) ==
            IdentityOf(Normalized(c))
  {
    NormalizeIdempotentIff(c.connect);
  }

  /** Validating at parse time, for the lease and again for the client settles after the first
      time, whatever the number of passes, when the address is stable. */
  lemma {:induction false} RepeatedNormalization(c: Fields, passes: nat)
    requires StableAddress(TrimSpace(c.connect))
    ensures Pass(c, passes + 1) == Normalized(c)
  {
    if passes > 0 {
      RepeatedNormalization(c, passes - 1);
      NormalizeIdempotentIff(c.connect);
    }
  }

  function Pass(c: Fields, passes: nat): Fields {
    if passes == 0 then c else Normalized(Pass(c, passes - 1))
  }

  /** Two configurations share a client exactly when their addresses lead to the same destination
      and every other field agrees up to surrounding space. */
  lemma SharedIdentityIff(c1: Fields, c2: Fields)
    ensures IdentityOf(Normalized(c1)) == IdentityOf(Normalized(c2)) <==>
            && DestinationOf(TrimSpace(c1.connect), DEFAULT_CONNECTOR_PORT)
               == DestinationOf(TrimSpace(c2.connect), DEFAULT_CONNECTOR_PORT)
            && TrimSpace(c1.token) == TrimSpace(c2.token)
            && TrimSpace(c1.forward) == TrimSpace(c2.forward)
            && TrimSpace(c1.tlsCaFile) == TrimSpace(c2.tlsCaFile)
            && TrimSpace(c1.tlsServerName) == TrimSpace(c2.tlsServerName)
            && c1.tlsInsecureSkipVerify == c2.tlsInsecureSkipVerify
  {
    NormalizeAlikeIff(c1.connect, c2.connect);
  }
}
