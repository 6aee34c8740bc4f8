/** The string operations of Go's strings package that the configuration code uses,
    on ASCII whitespace and letters. */
module Strings {

  predicate IsSpace(c: char) {
    c == ' ' || '\t' <= c <= '\r'
  }

  /** Space, tab, line feed, vertical tab, form feed and carriage return. */
  lemma SpacesAre(c: char)
    ensures IsSpace(c) <==> c == ' ' || c == '\t' || c == '\n' || c == '\U{0b}' || c == '\U{0c}' || c == '\r'
  {
  }

  predicate IsTrimmed(s: string) {
    s != "" ==> !IsSpace(s[0]) && !IsSpace(s[|s| - 1])
  }

  function TrimLeft(s: string): string {
    if s != "" && IsSpace(s[0]) then TrimLeft(s[1..]) else s
  }

  function TrimRight(s: string): string {
    if s != "" && IsSpace(s[|s| - 1]) then TrimRight(s[..|s| - 1]) else s
  }

  function TrimSpace(s: string): (r: string)
    ensures IsTrimmed(r)
    ensures IsTrimmed(s) ==> r == s
  {
    TrimLeftSpec(s);
    TrimRightSpec(TrimLeft(s));
    TrimRight(TrimLeft(s))
  }

  lemma {:induction false} TrimLeftSpec(s: string)
    ensures var r := TrimLeft(s);
            && (r == "" || !IsSpace(r[0]))
            && |r| <= |s| && r == s[|s| - |r|..]
            && forall i :: 0 <= i < |s| - |r| ==> IsSpace(s[i])
  {
    if s != "" && IsSpace(s[0]) {
      TrimLeftSpec(s[1..]);
    }
  }

  lemma {:induction false} TrimRightSpec(s: string)
    ensures var r := TrimRight(s);
            && (r == "" || !IsSpace(r[|r| - 1]))
            && |r| <= |s| && r == s[..|r|]
            && forall i :: |r| <= i < |s| ==> IsSpace(s[i])
  {
    if s != "" && IsSpace(s[|s| - 1]) {
      TrimRightSpec(s[..|s| - 1]);
    }
  }

  /** Trimming never lengthens, and shortens a string that ends in a space. */
  lemma TrimShortens(s: string)
    ensures |TrimSpace(s)| <= |s|
    ensures s != "" && IsSpace(s[|s| - 1]) ==> |TrimSpace(s)| < |s|
  {
    TrimLeftSpec(s);
    TrimRightSpec(TrimLeft(s));
  }

  function LowerChar(c: char): char {
    if 'A' <= c <= 'Z' then (c as int + 32) as char else c
  }

  function ToLower(s: string): string {
    seq(|s|, i requires 0 <= i < |s| => LowerChar(s[i]))
  }

  // What trimming and lowering mean.

  predicate IsBlank(s: string) {
    forall i :: 0 <= i < |s| ==> IsSpace(s[i])
  }

  /** m with nothing but spaces around it. */
  predicate IsPadded(s: string, a: string, m: string, b: string) {
    s == a + m + b && IsBlank(a) && IsBlank(b)
  }

  lemma {:induction false} TrimLeftPadding(a: string, rest: string)
    requires IsBlank(a)
    ensures TrimLeft(a + rest) == TrimLeft(rest)
  {
    if a == "" {
      assert a + rest == rest;
    } else {
      assert (a + rest)[1..] == a[1..] + rest;
      TrimLeftPadding(a[1..], rest);
    }
  }

  lemma {:induction false} TrimRightPadding(rest: string, b: string)
    requires IsBlank(b)
    ensures TrimRight(rest + b) == TrimRight(rest)
  {
    if b == "" {
      assert rest + b == rest;
    } else {
      assert (rest + b)[..|rest + b| - 1] == rest + b[..|b| - 1];
      TrimRightPadding(rest, b[..|b| - 1]);
    }
  }

  /** Trimming takes off the padding, whatever it is. */
  lemma TrimSpaceOfPadded(s: string, a: string, m: string, b: string)
    requires IsPadded(s, a, m, b) && IsTrimmed(m)
    ensures TrimSpace(s) == m
  {
    assert s == a + (m + b);
    TrimLeftPadding(a, m + b);
    if m == "" {
      assert m + b == b && b + "" == b;
      TrimLeftPadding(b, "");
    } else {
      assert TrimLeft(m + b) == m + b;
      TrimRightPadding(m, b);
    }
  }

  lemma {:induction false} TrimLeftPads(s: string) returns (a: string)
    ensures s == a + TrimLeft(s) && IsBlank(a)
  {
    if s != "" && IsSpace(s[0]) {
      a := TrimLeftPads(s[1..]);
      a := [s[0]] + a;
    } else {
      a := "";
    }
  }

  lemma {:induction false} TrimRightPads(s: string) returns (b: string)
    ensures s == TrimRight(s) + b && IsBlank(b)
  {
    if s != "" && IsSpace(s[|s| - 1]) {
      b := TrimRightPads(s[..|s| - 1]);
      b := b + [s[|s| - 1]];
    } else {
      b := "";
    }
  }

  lemma TrimSpacePads(s: string) returns (a: string, b: string)
    ensures IsPadded(s, a, TrimSpace(s), b)
  {
    a := TrimLeftPads(s);
    b := TrimRightPads(TrimLeft(s));
    assert a + (TrimSpace(s) + b) == a + TrimSpace(s) + b;
  }

  /** TrimSpace(s) is what remains of s without surrounding spaces, and nothing else is. */
  lemma TrimSpaceIff(s: string, m: string)
    ensures TrimSpace(s) == m <==> IsTrimmed(m) && exists a, b :: IsPadded(s, a, m, b)
  {
    var a, b := TrimSpacePads(s);
    if a', b' :| IsTrimmed(m) && IsPadded(s, a', m, b') {
      TrimSpaceOfPadded(s, a', m, b');
    }
  }

  lemma BlankIff(s: string)
    ensures TrimSpace(s) == "" <==> IsBlank(s)
  {
    if IsBlank(s) {
      assert IsPadded(s, s, "", "");
      TrimSpaceOfPadded(s, s, "", "");
    }
    if TrimSpace(s) == "" {
      var a, b := TrimSpacePads(s);
    }
  }

  /** Two characters that differ at most in ASCII case. */
  predicate SameLetter(c: char, d: char) {
    || c == d
    || ('A' <= c <= 'Z' && d as int == c as int + 32)
    || ('A' <= d <= 'Z' && c as int == d as int + 32)
  }

  predicate EqualFold(s: string, t: string) {
    |s| == |t| && forall i :: 0 <= i < |s| ==> SameLetter(s[i], t[i])
  }

  /** ToLower(s) is s up to case, without capitals. */
  lemma ToLowerIs(s: string)
    ensures EqualFold(ToLower(s), s)
    ensures forall i :: 0 <= i < |ToLower(s)| ==> !('A' <= ToLower(s)[i] <= 'Z')
  {
  }

  lemma ToLowerIff(s: string, t: string)
    ensures ToLower(s) == ToLower(t) <==> EqualFold(s, t)
  {
    if ToLower(s) == ToLower(t) {
      forall i | 0 <= i < |s|
        ensures SameLetter(s[i], t[i])
      {
        assert ToLower(s)[i] == LowerChar(s[i]) && ToLower(t)[i] == LowerChar(t[i]);
      }
    }
  }

  /** It does not matter whether a string is trimmed or lowered first. */
  lemma TrimToLower(s: string)
    ensures TrimSpace(ToLower(s)) == ToLower(TrimSpace(s))
  {
    var m := TrimSpace(s);
    var a, b := TrimSpacePads(s);
    assert ToLower(s) == ToLower(a) + ToLower(m) + ToLower(b);
    TrimSpaceOfPadded(ToLower(s), ToLower(a), ToLower(m), ToLower(b));
  }

  /** Position of the first c, as strings.Index. */
  function IndexOf(s: string, c: char): (i: nat)
    requires c in s
    ensures i < |s| && s[i] == c
    ensures forall k :: 0 <= k < i ==> s[k] != c
  {
    if s[0] == c then 0 else 1 + IndexOf(s[1..], c)
  }

  /** Position of the last c, as strings.LastIndex. */
  function LastIndexOf(s: string, c: char): (i: nat)
    requires c in s
    ensures i < |s| && s[i] == c
    ensures forall k :: i < k < |s| ==> s[k] != c
  {
    if s[|s| - 1] == c then |s| - 1
    else
      LastIndexOf(s[..|s| - 1], c)
  }

  function Count(s: string, c: char): nat {
    if s == "" then 0 else (if s[0] == c then 1 else 0) + Count(s[1..], c)
  }

  lemma {:induction false} CountConcat(a: string, b: string, c: char)
    ensures Count(a + b, c) == Count(a, c) + Count(b, c)
  {
    if a == "" {
      assert a + b == b;
    } else {
      CountConcat(a[1..], b, c);
      assert (a + b)[1..] == a[1..] + b;
    }
  }

  lemma {:induction false} CountZero(s: string, c: char)
    ensures Count(s, c) == 0 <==> c !in s
  {
    if s != "" {
      CountZero(s[1..], c);
      assert s == [s[0]] + s[1..];
    }
  }

  lemma KeepsVisible(s: string, i: nat)
    requires i < |s| && !IsSpace(s[i])
    ensures TrimSpace(s) != ""
  {
    var l := TrimLeft(s);
    TrimLeftSpec(s);
    TrimRightSpec(l);
    assert i >= |s| - |l|;
    assert l[i - (|s| - |l|)] == s[i];
  }
}
