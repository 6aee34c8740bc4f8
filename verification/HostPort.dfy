/** Go's net.SplitHostPort and net.JoinHostPort, and the grammar they agree on. A host that
    contains colons is written in brackets, as in section 3.2.2 of RFC 3986. */
module HostPort {
  import opened Wrappers
  import opened Strings

  datatype SplitError = MissingPort | TooManyColons | MissingBracket | UnexpectedBracket

  datatype Parts = Parts(host: string, port: string)

  predicate BracketFree(s: string) {
    '[' !in s && ']' !in s
  }

  /** What may stand behind the last colon of an address. */
  predicate PlainPort(p: string) {
    ':' !in p && BracketFree(p)
  }

  function JoinHostPort(host: string, port: string): string {
    if ':' in host then "[" + host + "]:" + port else host + ":" + port
  }

  function SplitHostPort(address: string): Result<Parts, SplitError> {
    if ':' !in address then Err(MissingPort)
    else
      var i := LastIndexOf(address, ':');
      if address[0] == '[' then
        if ']' !in address then Err(MissingBracket)
        else
          var end := IndexOf(address, ']');
          if end + 1 == |address| then Err(MissingPort)
          else if end + 1 != i then Err(if address[end + 1] == ':' then TooManyColons else MissingPort)
          else CheckBrackets(address[1..], address[end + 1..], Parts(address[1..end], address[i + 1..]))
      else if ':' in address[..i] then Err(TooManyColons)
      else CheckBrackets(address, address, Parts(address[..i], address[i + 1..]))
  }

  function CheckBrackets(noOpen: string, noClose: string, parts: Parts): Result<Parts, SplitError> {
    if '[' in noOpen || ']' in noClose then Err(UnexpectedBracket) else Ok(parts)
  }

  /** "host:port" with a plain host. */
  predicate IsPlainForm(address: string, h: string, p: string) {
    address == h + ":" + p && ':' !in h && BracketFree(h) && PlainPort(p)
  }

  /** "[host]:port"; colons are allowed inside the brackets. */
  predicate IsBracketForm(address: string, h: string, p: string) {
    address == "[" + h + "]:" + p && BracketFree(h) && PlainPort(p)
  }

  lemma LastColon(a: string, p: string)
    requires ':' !in p
    ensures ':' in a + ":" + p && LastIndexOf(a + ":" + p, ':') == |a|
  {
    assert (a + ":" + p)[|a|] == ':';
  }

  lemma FirstClose(a: string, b: string)
    requires ']' !in a
    ensures ']' in a + "]" + b && IndexOf(a + "]" + b, ']') == |a|
  {
    assert (a + "]" + b)[|a|] == ']';
  }

  lemma PlainFormSplits(address: string, h: string, p: string)
    requires IsPlainForm(address, h, p)
    ensures SplitHostPort(address) == Ok(Parts(h, p))
  {
    LastColon(h, p);
    assert address[..|h|] == h && address[|h| + 1..] == p;
  }

  lemma BracketSlices(address: string, h: string, p: string)
    requires IsBracketForm(address, h, p)
    ensures address == ("[" + h + "]") + ":" + p && address == ("[" + h) + "]" + (":" + p)
    ensures address[1..|h| + 1] == h && address[|h| + 3..] == p
    ensures '[' !in address[1..] && ']' !in address[|h| + 2..]
  {
    assert address[1..] == h + "]:" + p;
    assert address[|h| + 2..] == ":" + p;
  }

  lemma BracketFormSplits(address: string, h: string, p: string)
    requires IsBracketForm(address, h, p)
    ensures SplitHostPort(address) == Ok(Parts(h, p))
  {
    BracketSlices(address, h, p);
    LastColon("[" + h + "]", p);
    FirstClose("[" + h, ":" + p);
  }

  lemma SplitGivesPlainForm(address: string, h: string, p: string)
    requires SplitHostPort(address) == Ok(Parts(h, p)) && address[0] != '['
    ensures IsPlainForm(address, h, p)
  {
    var i := LastIndexOf(address, ':');
    assert address == address[..i] + ":" + address[i + 1..];
  }

  lemma SplitGivesBracketForm(address: string, h: string, p: string)
    requires SplitHostPort(address) == Ok(Parts(h, p)) && address[0] == '['
    ensures IsBracketForm(address, h, p)
  {
    var i, end := LastIndexOf(address, ':'), IndexOf(address, ']');
    assert end + 1 == i && h == address[1..end] && p == address[i + 1..];
    assert address == "[" + h + "]:" + p by { AssembleBracketForm(address, end); }
    forall c | c in h || c in p
      ensures c != '['
    {
      assert c in address[1..];
    }
    forall c | c in p
      ensures c != ']' && c != ':'
    {
      assert c in address[end + 1..];
    }
  }

  lemma AssembleBracketForm(address: string, end: nat)
    requires 1 <= end && end + 1 < |address|
    requires address[0] == '[' && address[end] == ']' && address[end + 1] == ':'
    ensures address == "[" + address[1..end] + "]:" + address[end + 2..]
  {
  }

  /** SplitHostPort succeeds on exactly the two forms of the grammar, with the parts they name. */
  lemma SplitHostPortAcceptsGrammar(address: string, h: string, p: string)
    ensures SplitHostPort(address) == Ok(Parts(h, p)) <==>
            IsPlainForm(address, h, p) || IsBracketForm(address, h, p)
  {
    if IsPlainForm(address, h, p) {
      PlainFormSplits(address, h, p);
    } else if IsBracketForm(address, h, p) {
      BracketFormSplits(address, h, p);
    } else if SplitHostPort(address) == Ok(Parts(h, p)) {
      if address[0] == '[' {
        SplitGivesBracketForm(address, h, p);
      } else {
        SplitGivesPlainForm(address, h, p);
      }
      assert false;
    }
  }

  lemma PlainColons(t: string, h: string, p: string)
    requires IsPlainForm(t, h, p)
    ensures Count(t, ':') == 1
  {
    assert t == h + (":" + p);
    CountConcat(h, ":" + p, ':');
    CountConcat(":", p, ':');
    CountZero(h, ':');
    CountZero(p, ':');
  }

  /** Splitting undoes joining exactly for bracket-free hosts and plain ports. */
  lemma SplitUndoesJoin(h: string, p: string)
    ensures SplitHostPort(JoinHostPort(h, p)) == Ok(Parts(h, p)) <==> BracketFree(h) && PlainPort(p)
  {
    SplitHostPortAcceptsGrammar(JoinHostPort(h, p), h, p);
    if ':' !in h && IsBracketForm(JoinHostPort(h, p), h, p) {
      assert |h + ":" + p| == |h| + |p| + 1;
      assert |"[" + h + "]:" + p| == |h| + |p| + 3;
    }
  }

  lemma LastColonUnique(a: string, p: string, b: string, q: string)
    requires ':' !in p && ':' !in q && a + ":" + p == b + ":" + q
    ensures a == b && p == q
  {
    var s := a + ":" + p;
    LastColon(a, p);
    LastColon(b, q);
    assert s[..|a|] == a && s[|a| + 1..] == p;
    assert s[..|b|] == b && s[|b| + 1..] == q;
  }

  lemma Unbracket(h: string, b: string)
    requires "[" + h + "]" == "[" + b + "]"
    ensures h == b
  {
    assert ("[" + h + "]")[1..|h| + 1] == h;
    assert ("[" + b + "]")[1..|b| + 1] == b;
  }

  /** When a joined address splits at all, it splits into the joined port and either the joined
      host or that host without its own brackets. */
  lemma JoinedSplitsAsJoined(h: string, p: string, h': string, p': string)
    requires PlainPort(p)
    requires SplitHostPort(JoinHostPort(h, p)) == Ok(Parts(h', p'))
    ensures BracketFree(h') && (h == h' || (':' !in h && h == "[" + h' + "]"))
  {
    SplitHostPortAcceptsGrammar(JoinHostPort(h, p), h', p');
    JoinedForms(h, p, h', p');
  }

  lemma JoinedForms(h: string, p: string, h': string, p': string)
    requires PlainPort(p)
    requires IsPlainForm(JoinHostPort(h, p), h', p') || IsBracketForm(JoinHostPort(h, p), h', p')
    ensures h == h' || (':' !in h && h == "[" + h' + "]")
  {
    var r := JoinHostPort(h, p);
    var a := if ':' in h then "[" + h + "]" else h;
    assert r == a + ":" + p;
    if IsPlainForm(r, h', p') {
      LastColonUnique(a, p, h', p');
    } else {
      assert r == ("[" + h' + "]") + ":" + p';
      LastColonUnique(a, p, "[" + h' + "]", p');
      if ':' in h {
        Unbracket(h, h');
      }
    }
  }
}
