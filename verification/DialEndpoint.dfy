/** How the reverse-proxy transport recovers a Bifrost endpoint key from a dial address. */
module DialEndpoint {
  import opened Wrappers
  import opened Strings
  import opened HostPort

  datatype DialError = EmptyAddress | EmptyEndpoint

  function NonBlank(host: string): Result<string, DialError> {
    if TrimSpace(host) == "" then Err(EmptyEndpoint) else Ok(TrimSpace(host))
  }

  function EndpointFromDialAddress(raw: string): (r: Result<string, DialError>)
    ensures r.Ok? ==> r.value != "" && IsTrimmed(r.value)
  {
    FromTrimmed(TrimSpace(raw))
  }

  function FromTrimmed(address: string): (r: Result<string, DialError>)
    ensures r.Ok? ==> r.value != "" && IsTrimmed(r.value)
  {
    if address == "" then Err(EmptyAddress)
    else
      match SplitHostPort(address)
      case Ok(parts) => NonBlank(parts.host)
      case Err(_) =>
        if address[0] == '[' && ']' in address then NonBlank(address[1..IndexOf(address, ']')])
        else if Count(address, ':') == 1 then CountZero(address, ':'); NonBlank(address[..IndexOf(address, ':')])
        else NonBlank(address)
  }

  /** The endpoint keys that survive a trip through a dial address. */
  predicate Recoverable(key: string) {
    && key != "" && IsTrimmed(key)
    && (if ':' in key then ']' !in key else !(key[0] == '[' && ']' in key))
  }

  /** Trimming a dial address can only shorten its port. */
  lemma TrimJoined(key: string, port: string)
    requires PlainPort(port) && key != "" && !IsSpace(key[0])
    ensures TrimSpace(JoinHostPort(key, port)) == JoinHostPort(key, TrimRight(port))
    ensures PlainPort(TrimRight(port))
  {
    var a := JoinHostPort(key, port);
    TrimRightSpec(port);
    assert TrimLeft(a) == a;
    TrimRightConcat(a[..|a| - |port|], port);
  }

  lemma {:induction false} TrimRightConcat(a: string, b: string)
    requires a != "" && !IsSpace(a[|a| - 1])
    ensures TrimRight(a + b) == a + TrimRight(b)
  {
    if b != "" && IsSpace(b[|b| - 1]) {
      assert (a + b)[..|a + b| - 1] == a + b[..|b| - 1];
      TrimRightConcat(a, b[..|b| - 1]);
    }
  }

  /** A key is recovered from its joined dial address exactly when it is recoverable. */
  lemma DialAddressRecoversKeyIff(key: string, port: string)
    requires PlainPort(port)
    ensures EndpointFromDialAddress(JoinHostPort(key, port)) == Ok(key) <==> Recoverable(key)
  {
    if key != "" && IsTrimmed(key) {
      TrimJoined(key, port);
      RecoverTrimmed(key, TrimRight(port));
    }
  }

  lemma RecoverTrimmed(key: string, port: string)
    requires PlainPort(port) && key != "" && IsTrimmed(key)
    ensures FromTrimmed(JoinHostPort(key, port)) == Ok(key) <==> Recoverable(key)
  {
    match SplitHostPort(JoinHostPort(key, port))
    case Ok(parts) => RecoverSplit(key, port, parts.host, parts.port);
    case Err(_) => RecoverUnsplit(key, port);
  }

  lemma RecoverSplit(key: string, port: string, h: string, p: string)
    requires PlainPort(port) && key != "" && IsTrimmed(key)
    requires SplitHostPort(JoinHostPort(key, port)) == Ok(Parts(h, p))
    ensures FromTrimmed(JoinHostPort(key, port)) == Ok(key) <==> Recoverable(key)
  {
    JoinedSplitsAsJoined(key, port, h, p);
    if key != h {
      assert key[|key| - 1] == ']' && key[0] == '[';
      TrimShortens(h);
    }
  }

  lemma RecoverUnsplit(key: string, port: string)
    requires PlainPort(port) && key != "" && IsTrimmed(key)
    requires SplitHostPort(JoinHostPort(key, port)).Err?
    ensures FromTrimmed(JoinHostPort(key, port)) == Ok(key) <==> Recoverable(key)
  {
    if ':' in key {
      UntilClose(key, port);
      TrimShortens(key[..IndexOf(JoinHostPort(key, port), ']') - 1]);
    } else {
      UntilColon(key, port);
      if ']' in key && key[0] == '[' {
        TrimShortens(JoinHostPort(key, port)[1..IndexOf(JoinHostPort(key, port), ']')]);
      }
    }
  }

  lemma UntilClose(key: string, port: string)
    ensures var a := "[" + key + "]:" + port;
            ']' in a && (a[1..IndexOf(a, ']')] == key <==> ']' !in key)
            && |a[1..IndexOf(a, ']')]| <= |key| && a[1..IndexOf(a, ']')] == key[..IndexOf(a, ']') - 1]
  {
    var a := "[" + key + "]:" + port;
    assert a[|key| + 1] == ']';
    var end := IndexOf(a, ']');
    assert forall k :: 0 <= k < |key| ==> key[k] == a[k + 1];
    assert end <= |key| + 1;
  }

  lemma UntilColon(key: string, port: string)
    requires key != "" && ':' !in key && PlainPort(port)
    ensures var a := key + ":" + port;
            && Count(a, ':') == 1 && ':' in a && a[..IndexOf(a, ':')] == key
            && a[0] == key[0] && (']' in a <==> ']' in key)
            && (']' in key ==> IndexOf(a, ']') < |key|)
  {
    var a := key + ":" + port;
    CountConcat(key, ":" + port, ':');
    CountConcat(":", port, ':');
    CountZero(key, ':');
    CountZero(port, ':');
    assert a == key + (":" + port);
    assert a[|key|] == ':';
    if ']' in key {
      var k := IndexOf(key, ']');
      assert a[k] == ']';
    }
  }

  /** Distinct recoverable keys have distinct dial addresses, whatever their ports. */
  lemma DialAddressesNeverCollide(k1: string, p1: string, k2: string, p2: string)
    requires Recoverable(k1) && Recoverable(k2) && k1 != k2 && PlainPort(p1) && PlainPort(p2)
    ensures JoinHostPort(k1, p1) != JoinHostPort(k2, p2)
  {
    DialAddressRecoversKeyIff(k1, p1);
    DialAddressRecoversKeyIff(k2, p2);
  }

  /** e is the endpoint named by this text: the text without surrounding spaces, unless blank. */
  predicate Names(text: string, e: string) {
    TrimSpace(text) == e && !IsBlank(text)
  }

  /** The endpoint every address yields, read off the trimmed address: the text up to the first
      closing bracket behind a leading one, else the text before a single colon, else all of it. */
  lemma DialAddressYieldsIff(raw: string, e: string)
    ensures var t := TrimSpace(raw);
            && (t != "" && t[0] == '[' && ']' in t ==>
                  (EndpointFromDialAddress(raw) == Ok(e) <==> Names(t[1..IndexOf(t, ']')], e)))
            && (t != "" && !(t[0] == '[' && ']' in t) && ':' in t && Count(t, ':') == 1 ==>
                  (EndpointFromDialAddress(raw) == Ok(e) <==> Names(t[..IndexOf(t, ':')], e)))
            && (t != "" && !(t[0] == '[' && ']' in t) && Count(t, ':') != 1 ==>
                  EndpointFromDialAddress(raw) == Ok(t))
            && (t == "" ==> EndpointFromDialAddress(raw) == Err(EmptyAddress))
            && (t != "" && EndpointFromDialAddress(raw).Err? ==> EndpointFromDialAddress(raw) == Err(EmptyEndpoint))
  {
    var t := TrimSpace(raw);
    if t != "" {
      match SplitHostPort(t)
      case Ok(parts) =>
        SplitHostPortAcceptsGrammar(t, parts.host, parts.port);
        BlankIff(parts.host);
        if IsPlainForm(t, parts.host, parts.port) {
          PlainParts(t, parts.host, parts.port);
        } else {
          RejectedBracket(t, parts.host, parts.port);
        }
      case Err(_) => UnsplitYields(t, e);
    }
  }

  lemma PlainParts(t: string, h: string, p: string)
    requires IsPlainForm(t, h, p)
    ensures Count(t, ':') == 1 && t != "" && t[0] != '[' && ':' in t && t[..IndexOf(t, ':')] == h
  {
    PlainColons(t, h, p);
    assert t[|h|] == ':';
    assert forall k :: 0 <= k < |h| ==> t[k] == h[k];
    if h != "" {
      assert h[0] == t[0] && h[0] in h;
    }
  }

  lemma UnsplitYields(t: string, e: string)
    requires t != "" && IsTrimmed(t) && SplitHostPort(t).Err?
    ensures t[0] == '[' && ']' in t ==> (FromTrimmed(t) == Ok(e) <==> Names(t[1..IndexOf(t, ']')], e))
    ensures !(t[0] == '[' && ']' in t) && ':' in t && Count(t, ':') == 1 ==>
              (FromTrimmed(t) == Ok(e) <==> Names(t[..IndexOf(t, ':')], e))
    ensures !(t[0] == '[' && ']' in t) && Count(t, ':') != 1 ==> FromTrimmed(t) == Ok(t)
  {
    if t[0] == '[' && ']' in t {
      BlankIff(t[1..IndexOf(t, ']')]);
    } else if ':' in t && Count(t, ':') == 1 {
      BlankIff(t[..IndexOf(t, ':')]);
    }
  }

  /** The addresses from which no endpoint can be derived: blank ones, a lone port, and a bracketed
      host that is blank. */
  lemma DialAddressRejectedIff(raw: string)
    ensures var t := TrimSpace(raw);
            EndpointFromDialAddress(raw).Err? <==>
            || t == ""
            || (t[0] == ':' && Count(t, ':') == 1)
            || (t[0] == '[' && ']' in t && TrimSpace(t[1..IndexOf(t, ']')]) == "")
  {
    if TrimSpace(raw) != "" {
      RejectedTrimmed(TrimSpace(raw));
    }
  }

  lemma RejectedTrimmed(t: string)
    requires t != "" && IsTrimmed(t)
    ensures FromTrimmed(t).Err? <==>
            || (t[0] == ':' && Count(t, ':') == 1)
            || (t[0] == '[' && ']' in t && TrimSpace(t[1..IndexOf(t, ']')]) == "")
  {
    if Count(t, ':') == 1 {
      CountZero(t, ':');
    }
    match SplitHostPort(t)
    case Ok(parts) =>
      SplitHostPortAcceptsGrammar(t, parts.host, parts.port);
      if IsPlainForm(t, parts.host, parts.port) {
        RejectedPlain(t, parts.host, parts.port);
      } else {
        RejectedBracket(t, parts.host, parts.port);
      }
    case Err(_) =>
      if Count(t, ':') == 1 && t[0] != ':' {
        VisiblePrefix(t[..IndexOf(t, ':')]);
      }
  }

  lemma VisiblePrefix(s: string)
    requires s != "" && !IsSpace(s[0])
    ensures TrimSpace(s) != ""
  {
    KeepsVisible(s, 0);
  }

  lemma RejectedPlain(t: string, h: string, p: string)
    requires t != "" && IsTrimmed(t) && IsPlainForm(t, h, p)
    ensures TrimSpace(h) == "" <==> t[0] == ':'
    ensures Count(t, ':') == 1 && t[0] != '['
  {
    PlainColons(t, h, p);
    if h != "" {
      assert h[0] == t[0] && h[0] in h;
      VisiblePrefix(h);
    }
  }

  lemma RejectedBracket(t: string, h: string, p: string)
    requires IsBracketForm(t, h, p)
    ensures t[0] == '[' && ']' in t && t[1..IndexOf(t, ']')] == h
  {
    assert t == ("[" + h) + "]" + (":" + p);
    FirstClose("[" + h, ":" + p);
    assert t[1..|h| + 1] == h;
  }
}
