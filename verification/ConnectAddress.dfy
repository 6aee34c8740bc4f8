/** Normalisation of the connector address a client dials, and exactly when normalising a
    second time changes nothing. */
module ConnectAddress {
  import opened Wrappers
  import opened Strings
  import opened HostPort

  const DEFAULT_CONNECTOR_PORT := "8443"

  predicate HasScheme(s: string) {
    exists i | 0 <= i < |s| - 2 :: s[i] == ':' && s[i + 1] == '/' && s[i + 2] == '/'
  }

  predicate InBrackets(s: string) {
    |s| >= 2 && s[0] == '[' && s[|s| - 1] == ']'
  }

  function Inside(s: string): string
    requires InBrackets(s)
  {
    s[1..|s| - 1]
  }

  function NormalizeConnectAddress(raw: string): string {
    NormalizeWith(TrimSpace(raw), DEFAULT_CONNECTOR_PORT)
  }

  function NormalizeWith(address: string, defaultPort: string): string
  {
    if address == "" || HasScheme(address) then address
    else
      match SplitHostPort(address)
      case Ok(parts) =>
        if parts.port == "" then JoinHostPort(parts.host, defaultPort) else address
      case Err(_) =>
        if InBrackets(address) then JoinHostPort(Inside(address), defaultPort)
        else if Count(address, ':') == 1 && address[|address| - 1] == ':' then
          JoinHostPort(address[..|address| - 1], defaultPort)
        else JoinHostPort(address, defaultPort)
  }

  predicate LeadingSpace(s: string) {
    s != "" && IsSpace(s[0])
  }

  /** A host that leaves its brackets without being trimmed must not begin with a space. */
  predicate SafeInBrackets(h: string) {
    BracketFree(h) && (':' in h || !LeadingSpace(h))
  }

  /** A colon-free host that brings its own pair of brackets. */
  predicate SafelyBracketed(h: string) {
    InBrackets(h) && BracketFree(Inside(h)) && ':' !in h
  }

  /** The trimmed addresses on which normalisation is idempotent: URLs, anything without
      brackets, "[h]:p", "[h]", and the doubly bracketed "[[h]]" of a colon-free h. */
  predicate StableAddress(t: string) {
    || t == ""
    || HasScheme(t)
    || BracketFree(t)
    || (InBrackets(t) && SafeInBrackets(Inside(t)))
    || (InBrackets(t) && SafelyBracketed(Inside(t)))
    || (match SplitHostPort(t)
        case Ok(parts) => parts.port != "" || SafeInBrackets(parts.host)
        case Err(_) => false)
  }

  /** What the proofs need of the default port. */
  predicate GoodPort(p: string) {
    p != "" && PlainPort(p) && '/' !in p && !IsSpace(p[|p| - 1])
  }

  ghost predicate Fixpoint(r: string, p: string) {
    NormalizeWith(TrimSpace(r), p) == r
  }

  /** Joining never makes an address look like a URL. */
  lemma JoinHasNoScheme(h: string, p: string)
    requires !HasScheme(h) && GoodPort(p)
    ensures !HasScheme(JoinHostPort(h, p))
  {
    var r := JoinHostPort(h, p);
    var d := if ':' in h then 1 else 0;
    forall i | 0 <= i < |r| - 2
      ensures !(r[i] == ':' && r[i + 1] == '/' && r[i + 2] == '/')
    {
      if d <= i && i - d < |h| - 2 {
        assert r[i] == h[i - d] && r[i + 1] == h[i - d + 1] && r[i + 2] == h[i - d + 2];
      } else if d <= i && i - d < |h| {
        assert r[d + |h|] != '/' && r[i] == h[i - d];
      }
    }
  }

  lemma SplitAddressIsFixpoint(r: string, p: string)
    requires IsTrimmed(r)
    requires match SplitHostPort(r) case Ok(parts) => parts.port != "" case Err(_) => false
    ensures NormalizeWith(TrimSpace(r), p) == r
  {
  }

  /** An address that does not split and ends in neither ':' nor ']' grows. */
  lemma UnsplitAddressGrows(r: string, p: string)
    requires r != "" && IsTrimmed(r) && !HasScheme(r) && SplitHostPort(r).Err?
    requires r[|r| - 1] != ':' && r[|r| - 1] != ']'
    ensures |NormalizeWith(TrimSpace(r), p)| > |r|
  {
  }

  lemma JoinEnds(h: string, p: string)
    requires GoodPort(p)
    ensures var r := JoinHostPort(h, p);
            && r != "" && r[|r| - 1] == p[|p| - 1] && r[|r| - 1] != ':' && r[|r| - 1] != ']'
            && (IsTrimmed(r) <==> ':' in h || !LeadingSpace(h))
  {
    var r := JoinHostPort(h, p);
    assert r[|r| - 1] == p[|p| - 1];
  }

  /** A joined address is a fixpoint when its host is bracket-free and it starts with no space. */
  lemma JoinedIsFixpoint(h: string, p: string)
    requires SafeInBrackets(h) && GoodPort(p)
    ensures Fixpoint(JoinHostPort(h, p), p)
  {
    JoinEnds(h, p);
    SplitUndoesJoin(h, p);
    SplitAddressIsFixpoint(JoinHostPort(h, p), p);
  }

  lemma JoinedUnsplitGrows(h: string, p: string)
    requires !HasScheme(h) && (':' in h || !LeadingSpace(h)) && GoodPort(p)
    requires SplitHostPort(JoinHostPort(h, p)).Err?
    ensures !Fixpoint(JoinHostPort(h, p), p)
  {
    JoinHasNoScheme(h, p);
    JoinEnds(h, p);
    UnsplitAddressGrows(JoinHostPort(h, p), p);
  }

  lemma JoinedLosesLeadingSpace(h: string, p: string)
    requires ':' !in h && LeadingSpace(h) && GoodPort(p)
    ensures !Fixpoint(JoinHostPort(h, p), p)
  {
    var r := JoinHostPort(h, p);
    var l := TrimLeft(r);
    TrimLeftSpec(r);
    TrimRightSpec(l);
    assert r[|h|] == ':' && r[|r| - 1] == p[|p| - 1];
    assert |l| > |p| && l[|l| - 1] == p[|p| - 1];
    assert TrimSpace(r) == l;
    assert l[|l| - |p| - 1] == ':';
    NormalizedStartsWithoutSpace(l, p);
  }

  lemma NormalizedStartsWithoutSpace(l: string, p: string)
    requires IsTrimmed(l) && ':' in l && l[|l| - 1] != ':' && l[|l| - 1] != ']'
    ensures NormalizeWith(l, p) != "" && !IsSpace(NormalizeWith(l, p)[0])
  {
    match SplitHostPort(l)
    case Ok(parts) => SplitHostPortAcceptsGrammar(l, parts.host, parts.port);
    case Err(_) =>
  }

  lemma SplitCase(t: string, p: string, host: string, port: string)
    requires IsTrimmed(t) && t != "" && !HasScheme(t) && GoodPort(p)
    requires SplitHostPort(t) == Ok(Parts(host, port))
    ensures Fixpoint(NormalizeWith(t, p), p) <==> StableAddress(t)
  {
    SplitHostPortAcceptsGrammar(t, host, port);
    if port == "" {
      if SafeInBrackets(host) {
        JoinedIsFixpoint(host, p);
      } else {
        assert t[|t| - 1] == ':' && t[0] == '[';
        JoinedLosesLeadingSpace(host, p);
      }
    }
  }

  lemma BracketCase(t: string, p: string)
    requires InBrackets(t) && !HasScheme(t) && SplitHostPort(t).Err? && GoodPort(p)
    ensures Fixpoint(NormalizeWith(t, p), p) <==> StableAddress(t)
  {
    var h := Inside(t);
    assert t == "[" + h + "]";
    InsideHasNoScheme(t);
    UnbracketedCase(h, p);
  }

  lemma UnbracketedCase(h: string, p: string)
    requires !HasScheme(h) && GoodPort(p)
    ensures Fixpoint(JoinHostPort(h, p), p) <==> SafeInBrackets(h) || SafelyBracketed(h)
  {
    if SafeInBrackets(h) {
      JoinedIsFixpoint(h, p);
    } else if ':' !in h && LeadingSpace(h) {
      JoinedLosesLeadingSpace(h, p);
    } else if SafelyBracketed(h) {
      BracketedIsFixpoint(h, p);
    } else {
      UnsplittableGrows(h, p);
    }
  }

  lemma InsideHasNoScheme(t: string)
    requires InBrackets(t) && !HasScheme(t)
    ensures !HasScheme(Inside(t))
  {
    var h := Inside(t);
    forall i | 0 <= i < |h| - 2
      ensures !(h[i] == ':' && h[i + 1] == '/' && h[i + 2] == '/')
    {
      assert t[i + 1] == h[i] && t[i + 2] == h[i + 1] && t[i + 3] == h[i + 2];
    }
  }

  /** A bracketed, colon-free host joins to "[x]:port", which splits. */
  lemma BracketedIsFixpoint(h: string, p: string)
    requires SafelyBracketed(h) && GoodPort(p)
    ensures Fixpoint(JoinHostPort(h, p), p)
  {
    assert IsBracketForm(JoinHostPort(h, p), Inside(h), p);
    BracketFormSplits(JoinHostPort(h, p), Inside(h), p);
    JoinEnds(h, p);
    SplitAddressIsFixpoint(JoinHostPort(h, p), p);
  }

  lemma BareCase(t: string, p: string)
    requires IsTrimmed(t) && t != "" && !HasScheme(t) && GoodPort(p)
    requires SplitHostPort(t).Err? && !InBrackets(t)
    ensures Fixpoint(NormalizeWith(t, p), p) <==> StableAddress(t)
  {
    if Count(t, ':') == 1 && t[|t| - 1] == ':' {
      DanglingColonCase(t, t[..|t| - 1], p);
    } else if BracketFree(t) {
      JoinedIsFixpoint(t, p);
    } else {
      UnsplittableGrows(t, p);
    }
  }

  lemma UnsplittableGrows(h: string, p: string)
    requires !HasScheme(h) && (':' in h || !LeadingSpace(h)) && GoodPort(p)
    requires !BracketFree(h) && !SafelyBracketed(h)
    ensures !Fixpoint(JoinHostPort(h, p), p)
  {
    match SplitHostPort(JoinHostPort(h, p))
    case Ok(parts) =>
      JoinedSplitsAsJoined(h, p, parts.host, parts.port);
      NotBracketedBy(h, parts.host);
      assert false;
    case Err(_) => JoinedUnsplitGrows(h, p);
  }

  lemma NotBracketedBy(h: string, x: string)
    requires !SafelyBracketed(h) && BracketFree(x)
    ensures h == "[" + x + "]" ==> ':' in h
  {
    assert ("[" + x + "]")[1..|x| + 1] == x;
  }

  lemma DanglingColonCase(t: string, g: string, p: string)
    requires IsTrimmed(t) && !HasScheme(t) && t == g + ":" && Count(t, ':') == 1 && GoodPort(p)
    requires SplitHostPort(t).Err?
    ensures !BracketFree(t)
    ensures !Fixpoint(JoinHostPort(g, p), p)
  {
    CountConcat(g, ":", ':');
    CountZero(g, ':');
    DanglingHasBrackets(t, g);
    PrefixHasNoScheme(t, g);
    UnsplittableGrows(g, p);
  }

  lemma DanglingSplits(t: string, g: string)
    requires t == g + ":" && ':' !in g && (BracketFree(g) || SafelyBracketed(g))
    ensures SplitHostPort(t).Ok?
  {
    assert t == g + ":" + "";
    if BracketFree(g) {
      PlainFormSplits(t, g, "");
    } else {
      assert IsBracketForm(t, Inside(g), "");
      BracketFormSplits(t, Inside(g), "");
    }
  }

  lemma DanglingHasBrackets(t: string, g: string)
    requires t == g + ":" && ':' !in g && SplitHostPort(t).Err?
    ensures !BracketFree(g) && !SafelyBracketed(g)
  {
    if BracketFree(g) || SafelyBracketed(g) {
      DanglingSplits(t, g);
    }
  }

  lemma PrefixHasNoScheme(t: string, g: string)
    requires t == g + ":" && !HasScheme(t)
    ensures !HasScheme(g)
  {
    forall i | 0 <= i < |g| - 2
      ensures !(g[i] == ':' && g[i + 1] == '/' && g[i + 2] == '/')
    {
      assert t[i] == g[i] && t[i + 1] == g[i + 1] && t[i + 2] == g[i + 2];
    }
  }

  /** NormalizeConnectAddress is idempotent exactly on the addresses whose trimmed form is stable. */
  lemma NormalizeIdempotentIff(raw: string)
    ensures NormalizeConnectAddress(NormalizeConnectAddress(raw)) == NormalizeConnectAddress(raw)
       <==> StableAddress(TrimSpace(raw))
  {
    assert GoodPort(DEFAULT_CONNECTOR_PORT);
    StableCases(TrimSpace(raw), DEFAULT_CONNECTOR_PORT);
  }

  lemma StableCases(t: string, p: string)
    requires IsTrimmed(t) && GoodPort(p)
    ensures Fixpoint(NormalizeWith(t, p), p) <==> StableAddress(t)
  {
    if t != "" && !HasScheme(t) {
      match SplitHostPort(t)
      case Ok(parts) => SplitCase(t, p, parts.host, parts.port);
      case Err(_) =>
        if InBrackets(t) {
          BracketCase(t, p);
        } else {
          BareCase(t, p);
        }
    }
  }

  /** A concrete address on which a second normalisation differs from the first. */
  lemma NormalizeNotIdempotent()
    ensures NormalizeConnectAddress("[ a]") != NormalizeConnectAddress(NormalizeConnectAddress("[ a]"))
  {
    var t := "[ a]";
    assert TrimSpace(t) == t;
    assert ':' !in t;
    assert Inside(t) == " a" && LeadingSpace(" a") && ':' !in " a";
    NormalizeIdempotentIff(t);
  }

  // What an address means.

  /** Where an address leads: nowhere, to a URL, or to a host and port. A host without colons keeps
      brackets that were written around it together with a port. */
  datatype Destination = Nowhere | Url(text: string) | Target(host: string, port: string, bracketed: bool)

  function DestinationOf(t: string, defaultPort: string): Destination {
    if t == "" then Nowhere
    else if HasScheme(t) then Url(t)
    else
      match SplitHostPort(t)
      case Ok(parts) =>
        if parts.port == "" then Target(parts.host, defaultPort, ':' in parts.host)
        else Target(parts.host, parts.port, t[0] == '[')
      case Err(_) =>
        if InBrackets(t) && SafelyBracketed(Inside(t)) then Target(Inside(Inside(t)), defaultPort, true)
        else if InBrackets(t) then Target(Inside(t), defaultPort, ':' in Inside(t))
        else if Count(t, ':') == 1 && t[|t| - 1] == ':' then Target(t[..|t| - 1], defaultPort, false)
        else Target(t, defaultPort, ':' in t)
  }

  /** The targets addresses lead to: a host with colons is in brackets, and a host without is not,
      unless it is free of brackets itself. */
  predicate IsCanonical(d: Destination) {
    && d.Target? && PlainPort(d.port) && d.port != ""
    && (':' in d.host ==> d.bracketed)
    && (d.bracketed && ':' !in d.host ==> BracketFree(d.host))
    && (!d.bracketed && InBrackets(d.host) ==> !BracketFree(Inside(d.host)))
  }

  function Written(d: Destination): string {
    match d
    case Nowhere => ""
    case Url(text) => text
    case Target(host, port, bracketed) => if bracketed then "[" + host + "]:" + port else host + ":" + port
  }

  function WrittenHost(d: Destination): string
    requires d.Target?
  {
    if d.bracketed then "[" + d.host + "]" else d.host
  }

  /** A target can be read back from how it is written. */
  lemma WrittenInjective(d1: Destination, d2: Destination)
    requires IsCanonical(d1) && IsCanonical(d2) && Written(d1) == Written(d2)
    ensures d1 == d2
  {
    var a1, a2 := WrittenHost(d1), WrittenHost(d2);
    assert Written(d1) == a1 + ":" + d1.port && Written(d2) == a2 + ":" + d2.port;
    LastColonUnique(a1, d1.port, a2, d2.port);
    if d1.bracketed && d2.bracketed {
      Unbracket(d1.host, d2.host);
    } else if d1.bracketed {
      BracketedElsewhere(d1.host, d2.host);
    } else if d2.bracketed {
      BracketedElsewhere(d2.host, d1.host);
    }
  }

  lemma BracketedElsewhere(h: string, outer: string)
    requires outer == "[" + h + "]"
    ensures InBrackets(outer) && Inside(outer) == h && (':' in h ==> ':' in outer)
  {
    assert forall i :: 0 <= i < |h| ==> outer[i + 1] == h[i];
  }

  /** Every address that is not a URL normalises to its destination written out, which is again no
      URL. */
  lemma NormalIsWritten(t: string, p: string)
    requires IsTrimmed(t) && t != "" && !HasScheme(t) && GoodPort(p)
    ensures IsCanonical(DestinationOf(t, p))
    ensures NormalizeWith(t, p) == Written(DestinationOf(t, p)) && !HasScheme(NormalizeWith(t, p))
  {
    match SplitHostPort(t)
    case Ok(parts) => SplitIsWritten(t, p, parts.host, parts.port);
    case Err(_) =>
      if InBrackets(t) {
        InsideHasNoScheme(t);
        JoinHasNoScheme(Inside(t), p);
      } else if Count(t, ':') == 1 && t[|t| - 1] == ':' {
        DanglingIsWritten(t, t[..|t| - 1], p);
      } else {
        JoinHasNoScheme(t, p);
      }
  }

  lemma DanglingIsWritten(t: string, g: string, p: string)
    requires t == g + ":" && Count(t, ':') == 1 && !HasScheme(t) && SplitHostPort(t).Err? && GoodPort(p)
    ensures ':' !in g && !HasScheme(JoinHostPort(g, p))
    ensures InBrackets(g) ==> !BracketFree(Inside(g))
  {
    CountConcat(g, ":", ':');
    CountZero(g, ':');
    DanglingHasBrackets(t, g);
    PrefixHasNoScheme(t, g);
    JoinHasNoScheme(g, p);
  }

  lemma SplitIsWritten(t: string, p: string, h: string, port: string)
    requires t != "" && !HasScheme(t) && GoodPort(p) && SplitHostPort(t) == Ok(Parts(h, port))
    ensures IsCanonical(DestinationOf(t, p))
    ensures NormalizeWith(t, p) == Written(DestinationOf(t, p)) && !HasScheme(NormalizeWith(t, p))
  {
    SplitHostPortAcceptsGrammar(t, h, port);
    if IsPlainForm(t, h, port) {
      assert h != "" ==> t[0] == h[0] && h[0] in h;
    }
    if port == "" {
      SplitHostHasNoScheme(t, h);
      JoinHasNoScheme(h, p);
    }
  }

  lemma SplitHostHasNoScheme(t: string, h: string)
    requires !HasScheme(t) && (IsPlainForm(t, h, "") || IsBracketForm(t, h, ""))
    ensures !HasScheme(h)
  {
    if IsPlainForm(t, h, "") {
      assert t == h + ":";
      PrefixHasNoScheme(t, h);
    } else {
      var g := "[" + h + "]";
      assert t == g + ":";
      PrefixHasNoScheme(t, g);
      InsideHasNoScheme(g);
      assert Inside(g) == h;
    }
  }

  /** Two addresses of any shape, URLs and implied ports included, normalise alike exactly when they
      lead to the same destination. */
  lemma NormalizeAlikeIff(raw1: string, raw2: string)
    ensures NormalizeConnectAddress(raw1) == NormalizeConnectAddress(raw2) <==>
            DestinationOf(TrimSpace(raw1), DEFAULT_CONNECTOR_PORT) ==
              DestinationOf(TrimSpace(raw2), DEFAULT_CONNECTOR_PORT)
  {
    assert GoodPort(DEFAULT_CONNECTOR_PORT);
    AlikeIff(TrimSpace(raw1), TrimSpace(raw2), DEFAULT_CONNECTOR_PORT);
  }

  lemma AlikeIff(t1: string, t2: string, p: string)
    requires IsTrimmed(t1) && IsTrimmed(t2) && GoodPort(p)
    ensures NormalizeWith(t1, p) == NormalizeWith(t2, p) <==> DestinationOf(t1, p) == DestinationOf(t2, p)
  {
    IsWritten(t1, p);
    IsWritten(t2, p);
    var d1, d2 := DestinationOf(t1, p), DestinationOf(t2, p);
    if d1.Target? && d2.Target? && Written(d1) == Written(d2) {
      WrittenInjective(d1, d2);
    }
  }

  lemma IsWritten(t: string, p: string)
    requires IsTrimmed(t) && GoodPort(p)
    ensures var n, d := NormalizeWith(t, p), DestinationOf(t, p);
            && n == Written(d)
            && (d.Nowhere? <==> n == "") && (d.Url? <==> HasScheme(n)) && (d.Target? ==> IsCanonical(d))
  {
    if t != "" && !HasScheme(t) {
      NormalIsWritten(t, p);
    }
  }

  /** Host and port alone do not decide it: brackets around a plain host with a port are kept. */
  lemma BracketsAreKept(h: string, p: string)
    requires ':' !in h && BracketFree(h) && !LeadingSpace(h) && GoodPort(p)
    ensures SplitHostPort("[" + h + "]:" + p) == SplitHostPort(h + ":" + p) == Ok(Parts(h, p))
    ensures NormalizeConnectAddress("[" + h + "]:" + p) != NormalizeConnectAddress(h + ":" + p)
  {
    var t, u := "[" + h + "]:" + p, h + ":" + p;
    BracketFormSplits(t, h, p);
    PlainFormSplits(u, h, p);
    ExplicitStays(t, h, p, DEFAULT_CONNECTOR_PORT);
    ExplicitStays(u, h, p, DEFAULT_CONNECTOR_PORT);
    assert |t| != |u|;
  }

  lemma ExplicitStays(t: string, h: string, p: string, defaultPort: string)
    requires GoodPort(p) && t != "" && !IsSpace(t[0]) && t[|t| - 1] == p[|p| - 1]
    requires SplitHostPort(t) == Ok(Parts(h, p))
    ensures NormalizeWith(TrimSpace(t), defaultPort) == t
  {
    assert IsTrimmed(t);
  }

  lemma EmptyPortIsFilled(t: string, h: string, p: string)
    requires t != "" && IsTrimmed(t) && !HasScheme(t) && SplitHostPort(t) == Ok(Parts(h, ""))
    ensures NormalizeWith(TrimSpace(t), p) == JoinHostPort(h, p)
  {
  }

  /** Addresses written out with a port, a slash in it included, are told apart by host and port. */
  lemma ExplicitAddressesDistinct(h1: string, p1: string, h2: string, p2: string)
    requires BracketFree(h1) && PlainPort(p1) && p1 != "" && IsTrimmed(JoinHostPort(h1, p1))
    requires BracketFree(h2) && PlainPort(p2) && p2 != "" && IsTrimmed(JoinHostPort(h2, p2))
    ensures NormalizeConnectAddress(JoinHostPort(h1, p1)) == NormalizeConnectAddress(JoinHostPort(h2, p2))
       <==> h1 == h2 && p1 == p2
  {
    SplitUndoesJoin(h1, p1);
    SplitUndoesJoin(h2, p2);
    JoinedStays(JoinHostPort(h1, p1), h1, p1, DEFAULT_CONNECTOR_PORT);
    JoinedStays(JoinHostPort(h2, p2), h2, p2, DEFAULT_CONNECTOR_PORT);
  }

  lemma JoinedStays(t: string, h: string, p: string, defaultPort: string)
    requires IsTrimmed(t) && p != "" && SplitHostPort(t) == Ok(Parts(h, p))
    ensures NormalizeWith(TrimSpace(t), defaultPort) == t
  {
  }

  /** The port is optional. A host in brackets, with or without an empty port, means the default
      port, whether it is a name or an IPv6 address; so does the bare host, unless it has exactly
      one colon, which would start a port. */
  lemma DefaultPortSpellings(h: string)
    requires BracketFree(h) && !HasScheme(h)
    ensures NormalizeConnectAddress("[" + h + "]") == JoinHostPort(h, "8443")
    ensures NormalizeConnectAddress("[" + h + "]:") == JoinHostPort(h, "8443")
    ensures h != "" && IsTrimmed(h) && Count(h, ':') != 1 ==>
              NormalizeConnectAddress(h) == JoinHostPort(h, "8443")
    ensures h != "" && IsTrimmed(h) && ':' !in h ==>
              NormalizeConnectAddress(h + ":") == JoinHostPort(h, "8443")
    ensures SafeInBrackets(h) ==>
              NormalizeConnectAddress(JoinHostPort(h, "8443")) ==
                JoinHostPort(h, "8443")
  {
    assert GoodPort(DEFAULT_CONNECTOR_PORT);
    BracketSpellings(h, DEFAULT_CONNECTOR_PORT);
    if h != "" && IsTrimmed(h) {
      BareSpellings(h, DEFAULT_CONNECTOR_PORT);
    }
    if SafeInBrackets(h) {
      JoinedIsFixpoint(h, DEFAULT_CONNECTOR_PORT);
    }
  }

  lemma BracketSpellings(h: string, p: string)
    requires BracketFree(h) && !HasScheme(h)
    ensures NormalizeWith(TrimSpace("[" + h + "]"), p) == JoinHostPort(h, p)
    ensures NormalizeWith(TrimSpace("[" + h + "]:"), p) == JoinHostPort(h, p)
  {
    var t, u := "[" + h + "]", "[" + h + "]:";
    assert InBrackets(t) && Inside(t) == h;
    BracketsHaveNoScheme(h);
    ClosedDoesNotSplit(t);
    assert u == "[" + h + "]:" + "";
    BracketFormSplits(u, h, "");
    EmptyPortIsFilled(u, h, p);
  }

  lemma BracketsHaveNoScheme(h: string)
    requires !HasScheme(h)
    ensures !HasScheme("[" + h + "]") && !HasScheme("[" + h + "]:")
  {
    var u := "[" + h + "]:";
    forall i | 0 <= i < |u| - 2
      ensures !(u[i] == ':' && u[i + 1] == '/' && u[i + 2] == '/')
    {
      if 1 <= i && i + 1 < |h| {
        assert u[i] == h[i - 1] && u[i + 1] == h[i] && u[i + 2] == h[i + 1];
      }
    }
    assert forall i :: 0 <= i < |u| - 1 ==> u[i] == ("[" + h + "]")[i];
  }

  lemma FormsEndOpen(t: string, h: string, p: string)
    requires IsPlainForm(t, h, p) || IsBracketForm(t, h, p)
    ensures t != "" && t[|t| - 1] != ']'
  {
    if p != "" {
      assert t[|t| - 1] == p[|p| - 1] && p[|p| - 1] in p;
    }
  }

  lemma ClosedDoesNotSplit(t: string)
    requires t != "" && t[|t| - 1] == ']'
    ensures SplitHostPort(t).Err?
  {
    if SplitHostPort(t).Ok? {
      var parts := SplitHostPort(t).value;
      SplitHostPortAcceptsGrammar(t, parts.host, parts.port);
      FormsEndOpen(t, parts.host, parts.port);
    }
  }

  lemma BareSpellings(h: string, p: string)
    requires h != "" && IsTrimmed(h) && BracketFree(h) && !HasScheme(h)
    ensures Count(h, ':') != 1 ==> NormalizeWith(TrimSpace(h), p) == JoinHostPort(h, p)
    ensures ':' !in h ==> NormalizeWith(TrimSpace(h + ":"), p) == JoinHostPort(h, p)
  {
    if Count(h, ':') != 1 {
      match SplitHostPort(h)
      case Ok(parts) =>
        SplitHostPortAcceptsGrammar(h, parts.host, parts.port);
        PlainColons(h, parts.host, parts.port);
        assert false;
      case Err(_) =>
    }
    if ':' !in h {
      PlainHostSpellings(h, p);
    }
  }

  lemma PlainHostSpellings(h: string, p: string)
    requires h != "" && IsTrimmed(h) && ':' !in h && BracketFree(h)
    ensures NormalizeWith(TrimSpace(h + ":"), p) == JoinHostPort(h, p)
  {
    var t := h + ":";
    assert t == h + ":" + "" && t[0] == h[0] && t[|t| - 1] == ':';
    PlainFormSplits(t, h, "");
    assert !HasScheme(t);
    EmptyPortIsFilled(t, h, p);
  }

  /** Only a blank address normalises to a blank one. */
  lemma NormalizeBlankIff(raw: string)
    ensures TrimSpace(NormalizeConnectAddress(raw)) == "" <==> TrimSpace(raw) == ""
  {
    if TrimSpace(raw) != "" {
      var i := VisiblePosition(TrimSpace(raw), DEFAULT_CONNECTOR_PORT);
      KeepsVisible(NormalizeConnectAddress(raw), i);
    }
  }

  lemma VisiblePosition(t: string, p: string) returns (i: nat)
    requires t != "" && IsTrimmed(t)
    ensures i < |NormalizeWith(t, p)| && !IsSpace(NormalizeWith(t, p)[i])
  {
    var n := NormalizeWith(t, p);
    if n == t {
      i := 0;
    } else {
      JoinHasColon(t, p);
      i := IndexOf(n, ':');
    }
  }

  lemma JoinHasColon(t: string, p: string)
    requires NormalizeWith(t, p) != t
    ensures ':' in NormalizeWith(t, p)
  {
    forall h: string
      ensures ':' in JoinHostPort(h, p)
    {
      assert ':' !in h ==> JoinHostPort(h, p)[|h|] == ':';
    }
  }

  // The result, told from the address as it is configured.

  predicate IsSchemeAt(s: string, scheme: string, rest: string) {
    s == scheme + "://" + rest
  }

  lemma HasSchemeIff(s: string)
    ensures HasScheme(s) <==> exists scheme, rest :: IsSchemeAt(s, scheme, rest)
  {
    if HasScheme(s) {
      var i :| 0 <= i < |s| - 2 && s[i] == ':' && s[i + 1] == '/' && s[i + 2] == '/';
      assert s == s[..i] + "://" + s[i + 3..];
      assert IsSchemeAt(s, s[..i], s[i + 3..]);
    }
    if scheme, rest :| IsSchemeAt(s, scheme, rest) {
      var i := |scheme|;
      assert s[i] == ':' && s[i + 1] == '/' && s[i + 2] == '/';
    }
  }

  /** The host and the default port, written as one address. */
  predicate OnDefaultPort(host: string, result: string) {
    result == if ':' in host then "[" + host + "]:8443" else host + ":8443"
  }

  predicate IsHostAndPort(t: string, host: string, port: string) {
    IsPlainForm(t, host, port) || IsBracketForm(t, host, port)
  }

  ghost predicate HasHostAndPort(t: string) {
    exists host, port :: IsHostAndPort(t, host, port)
  }

  predicate IsWrapped(t: string, inside: string) {
    t == "[" + inside + "]"
  }

  predicate IsDangling(t: string, name: string) {
    t == name + ":" && ':' !in name
  }

  ghost predicate HasWrapping(t: string) {
    exists inside :: IsWrapped(t, inside)
  }

  ghost predicate DanglesColon(t: string) {
    exists name :: IsDangling(t, name)
  }

  /** What a trimmed address that is neither empty nor a URL becomes. */
  ghost predicate Dials(t: string, result: string) {
    if HasHostAndPort(t) then
      exists host, port :: IsHostAndPort(t, host, port)
        && if port == "" then OnDefaultPort(host, result) else result == t
    else if HasWrapping(t) then exists inside :: IsWrapped(t, inside) && OnDefaultPort(inside, result)
    else if DanglesColon(t) then exists name :: IsDangling(t, name) && OnDefaultPort(name, result)
    else OnDefaultPort(t, result)
  }

  /** What a configured address becomes. */
  ghost predicate NormalizesTo(raw: string, result: string) {
    if IsBlank(raw) then result == ""
    else if exists scheme, rest :: IsSchemeAt(TrimSpace(raw), scheme, rest) then result == TrimSpace(raw)
    else Dials(TrimSpace(raw), result)
  }

  lemma SplitFormIff(t: string)
    ensures HasHostAndPort(t) <==> SplitHostPort(t).Ok?
    ensures forall h, p :: IsHostAndPort(t, h, p) <==> SplitHostPort(t) == Ok(Parts(h, p))
  {
    forall h, p
      ensures IsHostAndPort(t, h, p) <==> SplitHostPort(t) == Ok(Parts(h, p))
    {
      SplitHostPortAcceptsGrammar(t, h, p);
    }
    if SplitHostPort(t).Ok? {
      var parts := SplitHostPort(t).value;
      assert IsHostAndPort(t, parts.host, parts.port);
    }
  }

  lemma WrappedIff(t: string)
    ensures HasWrapping(t) <==> InBrackets(t)
    ensures forall x :: IsWrapped(t, x) <==> InBrackets(t) && x == Inside(t)
  {
    forall x | IsWrapped(t, x)
      ensures InBrackets(t) && x == Inside(t)
    {
      assert t[1..|t| - 1] == x;
    }
    if InBrackets(t) {
      assert IsWrapped(t, Inside(t));
    }
  }

  lemma DanglingIff(t: string)
    requires t != ""
    ensures DanglesColon(t) <==> Count(t, ':') == 1 && t[|t| - 1] == ':'
    ensures forall x :: IsDangling(t, x) ==> x == t[..|t| - 1]
    ensures DanglesColon(t) ==> IsDangling(t, t[..|t| - 1])
  {
    var g := t[..|t| - 1];
    forall x | IsDangling(t, x)
      ensures x == g && t[|t| - 1] == ':'
    {
      assert t[..|t| - 1] == x;
    }
    if t[|t| - 1] == ':' {
      assert t == g + ":";
      CountConcat(g, ":", ':');
      CountZero(g, ':');
      assert ':' !in g ==> IsDangling(t, g);
    }
  }

  lemma OnDefaultPortIff(host: string, result: string)
    ensures OnDefaultPort(host, result) <==> result == JoinHostPort(host, "8443")
  {
  }

  lemma DialsSplit(t: string, h: string, p: string, result: string)
    requires IsHostAndPort(t, h, p)
    requires forall h', p' :: IsHostAndPort(t, h', p') ==> h' == h && p' == p
    ensures Dials(t, result) <==> if p == "" then OnDefaultPort(h, result) else result == t
  {
    assert HasHostAndPort(t);
  }

  lemma DialsUnsplit(t: string, result: string)
    requires t != "" && !HasHostAndPort(t)
    ensures Dials(t, result) <==>
            if InBrackets(t) then OnDefaultPort(Inside(t), result)
            else if DanglesColon(t) then OnDefaultPort(t[..|t| - 1], result)
            else OnDefaultPort(t, result)
  {
    WrappedIff(t);
    DanglingIff(t);
    if InBrackets(t) {
      assert IsWrapped(t, Inside(t));
    }
  }

  lemma SplitDialsIff(t: string, h: string, p: string, result: string)
    requires t != "" && !HasScheme(t) && SplitHostPort(t) == Ok(Parts(h, p))
    ensures NormalizeWith(t, "8443") == result <==> Dials(t, result)
  {
    SplitFormIff(t);
    DialsSplit(t, h, p, result);
    OnDefaultPortIff(h, result);
    NormalSplit(t, "8443");
  }

  lemma NormalSplit(t: string, defaultPort: string)
    requires t != "" && !HasScheme(t) && SplitHostPort(t).Ok?
    ensures var parts := SplitHostPort(t).value;
            NormalizeWith(t, defaultPort) == if parts.port == "" then JoinHostPort(parts.host, defaultPort) else t
  {
  }

  lemma UnsplitDialsIff(t: string, result: string)
    requires t != "" && !HasScheme(t) && SplitHostPort(t).Err?
    ensures NormalizeWith(t, "8443") == result <==> Dials(t, result)
  {
    SplitFormIff(t);
    DialsUnsplit(t, result);
    DanglingIff(t);
    var host := if InBrackets(t) then Inside(t) else if DanglesColon(t) then t[..|t| - 1] else t;
    OnDefaultPortIff(host, result);
    NormalUnsplit(t, "8443", host);
  }

  lemma NormalUnsplit(t: string, defaultPort: string, host: string)
    requires t != "" && !HasScheme(t) && SplitHostPort(t).Err?
    requires host == if InBrackets(t) then Inside(t)
                     else if Count(t, ':') == 1 && t[|t| - 1] == ':' then t[..|t| - 1] else t
    ensures NormalizeWith(t, defaultPort) == JoinHostPort(host, defaultPort)
  {
  }

  /** The normalised address, told from the configured one: blank addresses and URLs are only
      trimmed, a port that is written stays, and every other address gets the port 8443. */
  lemma NormalizeYieldsIff(raw: string, result: string)
    ensures NormalizeConnectAddress(raw) == result <==> NormalizesTo(raw, result)
  {
    var t := TrimSpace(raw);
    BlankIff(raw);
    HasSchemeIff(t);
    if t != "" && !HasScheme(t) {
      if SplitHostPort(t).Ok? {
        SplitDialsIff(t, SplitHostPort(t).value.host, SplitHostPort(t).value.port, result);
      } else {
        UnsplitDialsIff(t, result);
      }
    }
  }
}
