/** Exact SNI routes: names as in section 3 of RFC 6066, compared after one normalisation. */
module Routes {
  import opened Wrappers
  import opened Strings

  datatype SniRoute = SniRoute(serverName: string, endpoint: string)

  datatype Offence = NameRequired | NotExact | EndpointRequired | Duplicate

  datatype RouteError = RouteError(index: nat, offence: Offence)

  function TrimRootDot(s: string): string {
    if s != "" && s[|s| - 1] == '.' then s[..|s| - 1] else s
  }

  function NormalizeServerName(s: string): string {
    ToLower(TrimRootDot(TrimSpace(s)))
  }

  /** One root dot is removed, once: what is left must not end in another dot or in a space. */
  predicate StableName(s: string) {
    var u := TrimRootDot(TrimSpace(s));
    u == "" || (u[|u| - 1] != '.' && !IsSpace(u[|u| - 1]))
  }

  lemma LowerFixpoint(s: string)
    ensures ToLower(ToLower(s)) == ToLower(s)
  {
  }

  /** Normalising a server name is idempotent exactly when the name is stable. */
  lemma NormalizeServerNameIdempotentIff(s: string)
    ensures NormalizeServerName(NormalizeServerName(s)) == NormalizeServerName(s) <==> StableName(s)
  {
    var u := TrimRootDot(TrimSpace(s));
    if u != "" {
      assert !IsSpace(u[0]);
      LoweredFixpointIff(u);
    }
  }

  lemma LoweredFixpointIff(u: string)
    requires u != "" && !IsSpace(u[0])
    ensures NormalizeServerName(ToLower(u)) == ToLower(u) <==> u[|u| - 1] != '.' && !IsSpace(u[|u| - 1])
  {
    var n := ToLower(u);
    assert n[|u| - 1] == LowerChar(u[|u| - 1]) && n[0] == LowerChar(u[0]);
    if IsSpace(u[|u| - 1]) {
      NormalizeShortens(n);
    } else {
      assert TrimSpace(n) == n;
      LowerFixpoint(u);
    }
  }

  lemma NormalizeShortens(n: string)
    requires n != "" && IsSpace(n[|n| - 1])
    ensures |NormalizeServerName(n)| < |n|
  {
    TrimShortens(n);
  }

  lemma NormalizeServerNameNotIdempotent()
    ensures NormalizeServerName(NormalizeServerName("a..")) != NormalizeServerName("a..")
  {
    assert IsTrimmed("a..");
    assert "a.."[..2] == "a.";
    NormalizeServerNameIdempotentIff("a..");
  }

  /** u is s without surrounding spaces and without one final dot. */
  predicate IsBareName(s: string, u: string) {
    TrimSpace(s) == u + "." || (TrimSpace(s) == u && (u != "" ==> u[|u| - 1] != '.'))
  }

  function BareName(s: string): string {
    TrimRootDot(TrimSpace(s))
  }

  lemma BareNameIff(s: string, u: string)
    ensures BareName(s) == u <==> IsBareName(s, u)
  {
    var t := TrimSpace(s);
    assert t != "" ==> t == t[..|t| - 1] + [t[|t| - 1]];
  }

  /** The same name: equal but for surrounding spaces, one final dot and ASCII case. */
  predicate SameName(s: string, t: string) {
    EqualFold(BareName(s), BareName(t))
  }

  /** Two server names normalise alike exactly when they are the same name. */
  lemma NamesAlikeIff(s: string, t: string)
    ensures NormalizeServerName(s) == NormalizeServerName(t) <==> SameName(s, t)
  {
    ToLowerIff(BareName(s), BareName(t));
  }

  /** A normalised name is the bare one up to case, without capitals. */
  lemma NormalizedNameIs(s: string)
    ensures EqualFold(NormalizeServerName(s), BareName(s))
    ensures forall i :: 0 <= i < |NormalizeServerName(s)| ==> !('A' <= NormalizeServerName(s)[i] <= 'Z')
    ensures NormalizeServerName(s) == "" <==> BareName(s) == ""
  {
    ToLowerIs(BareName(s));
  }

  predicate HasWildcard(name: string) {
    '*' in name || '{' in name || '}' in name
  }

  /** What a route contributes to the table. */
  datatype Keyed = Keyed(name: string, endpoint: string)

  function KeyOf(route: SniRoute): Keyed {
    Keyed(NormalizeServerName(route.serverName), TrimSpace(route.endpoint))
  }

  function KeysOf(routes: seq<SniRoute>): (keys: seq<Keyed>)
    ensures |keys| == |routes|
  {
    if routes == [] then [] else [KeyOf(routes[0])] + KeysOf(routes[1..])
  }

  lemma {:induction false} KeyAt(routes: seq<SniRoute>, i: nat)
    requires i < |routes|
    ensures KeysOf(routes)[i] == KeyOf(routes[i])
  {
    if i > 0 {
      KeyAt(routes[1..], i - 1);
    }
  }

  predicate Duplicates(keys: seq<Keyed>, i: nat)
    requires i < |keys|
  {
    exists j | 0 <= j < i :: keys[j].name == keys[i].name
  }

  /** What is wrong with route i, in the order the checks are made. */
  function OffenceAt(keys: seq<Keyed>, i: nat): Option<Offence>
    requires i < |keys|
  {
    if keys[i].name == "" then Some(NameRequired)
    else if HasWildcard(keys[i].name) then Some(NotExact)
    else if keys[i].endpoint == "" then Some(EndpointRequired)
    else if Duplicates(keys, i) then Some(Duplicate)
    else None
  }

  predicate Acceptable(keys: seq<Keyed>) {
    forall i | 0 <= i < |keys| :: OffenceAt(keys, i) == None
  }

  /** table maps exactly the names of the keys, each to its endpoint. */
  ghost predicate IsTableOf(table: map<string, string>, keys: seq<Keyed>) {
    && (forall i :: 0 <= i < |keys| ==> keys[i].name in table && table[keys[i].name] == keys[i].endpoint)
    && (forall name :: name in table ==> exists i :: 0 <= i < |keys| && keys[i].name == name)
  }

  function Resolve(table: map<string, string>, serverName: string): Option<string> {
    var name := NormalizeServerName(serverName);
    if name in table then Some(table[name]) else None
  }

  /** table is that of the first n routes, none of which offends. */
  ghost predicate CleanUpTo(table: map<string, string>, keys: seq<Keyed>, n: nat) {
    && n <= |keys|
    && IsTableOf(table, keys[..n])
    && forall i :: 0 <= i < n ==> OffenceAt(keys, i) == None
  }

  ghost predicate IsLeastOffence(keys: seq<Keyed>, error: RouteError) {
    && error.index < |keys|
    && OffenceAt(keys, error.index) == Some(error.offence)
    && forall i :: 0 <= i < error.index ==> OffenceAt(keys, i) == None
  }

  /** The checks on one route, given the table of the routes before it, which it then joins. */
  method AddRoute(key: Keyed, table: map<string, string>, index: nat, ghost keys: seq<Keyed>)
    returns (r: Result<map<string, string>, RouteError>)
    requires index < |keys| && keys[index] == key && CleanUpTo(table, keys, index)
    ensures r.Ok? ==> CleanUpTo(r.value, keys, index + 1)
    ensures r.Err? ==> IsLeastOffence(keys, r.error)
  {
    DuplicateIffInTable(table, keys, index);
    if key.name == "" {
      return Err(RouteError(index, NameRequired));
    }
    if HasWildcard(key.name) {
      return Err(RouteError(index, NotExact));
    }
    if key.endpoint == "" {
      return Err(RouteError(index, EndpointRequired));
    }
    if key.name in table {
      return Err(RouteError(index, Duplicate));
    }
    TableExtends(table, keys, index);
    return Ok(table[key.name := key.endpoint]);
  }

  /** Reports the least offending route, or builds the table. */
  method NewRouteTable(routes: seq<SniRoute>) returns (r: Result<map<string, string>, RouteError>)
    ensures r.Ok? ==> Acceptable(KeysOf(routes)) && IsTableOf(r.value, KeysOf(routes))
    ensures r.Ok? ==> RoutesAs(r.value, routes)
    ensures r.Err? ==> IsLeastOffence(KeysOf(routes), r.error)
    ensures r.Err? ==> r.error.index < |routes| && IsOffence(routes, r.error.index, r.error.offence)
  {
    var table := map[];
    ghost var keys := KeysOf(routes);
    for index := 0 to |routes|
      invariant CleanUpTo(table, keys, index)
    {
      KeyAt(routes, index);
      r := AddRoute(KeyOf(routes[index]), table, index, keys);
      if r.Err? {
        OffenceIff(routes, r.error.index, r.error.offence);
        return;
      }
      table := r.value;
    }
    assert keys[..|keys|] == keys;
    TableRoutes(table, routes);
    return Ok(table);
  }

  lemma DuplicateIffInTable(table: map<string, string>, keys: seq<Keyed>, i: nat)
    requires i < |keys| && IsTableOf(table, keys[..i])
    ensures Duplicates(keys, i) <==> keys[i].name in table
  {
    if keys[i].name in table {
      var j :| 0 <= j < i && keys[..i][j].name == keys[i].name;
      assert keys[j].name == keys[i].name;
    } else {
      assert forall j :: 0 <= j < i ==> keys[..i][j] == keys[j];
    }
  }

  lemma TableExtends(table: map<string, string>, keys: seq<Keyed>, i: nat)
    requires i < |keys| && CleanUpTo(table, keys, i) && OffenceAt(keys, i) == None && keys[i].name !in table
    ensures CleanUpTo(table[keys[i].name := keys[i].endpoint], keys, i + 1)
  {
    var t, before, after := table[keys[i].name := keys[i].endpoint], keys[..i], keys[..i + 1];
    assert after == before + [keys[i]];
    forall name | name in t
      ensures exists j :: 0 <= j < |after| && after[j].name == name
    {
      if name in table {
        var j :| 0 <= j < i && before[j].name == name;
        assert after[j].name == name;
      } else {
        assert after[i].name == name;
      }
    }
  }

  /** The first route whose normalised name is the normalised query. */
  function Scan(keys: seq<Keyed>, name: string): Option<string> {
    if keys == [] then None
    else if keys[0].name == name then Some(keys[0].endpoint)
    else Scan(keys[1..], name)
  }

  /** Looking a name up agrees with scanning the routes for it. */
  lemma ResolveAgreesWithScan(table: map<string, string>, keys: seq<Keyed>, serverName: string)
    requires Acceptable(keys) && IsTableOf(table, keys)
    ensures Resolve(table, serverName) == Scan(keys, NormalizeServerName(serverName))
  {
    ScanFinds(keys, NormalizeServerName(serverName));
  }

  lemma {:induction false} ScanFinds(keys: seq<Keyed>, name: string)
    ensures Scan(keys, name) == None ==> forall i :: 0 <= i < |keys| ==> keys[i].name != name
    ensures Scan(keys, name).Some? ==> exists i :: 0 <= i < |keys| && keys[i] == Keyed(name, Scan(keys, name).value)
  {
    if keys != [] {
      ScanFinds(keys[1..], name);
    }
  }

  // The routes as they are configured.

  predicate IsWildcard(c: char) {
    c == '*' || c == '{' || c == '}'
  }

  lemma NormalizingKeepsWildcard(s: string, c: char)
    requires IsWildcard(c)
    ensures c in NormalizeServerName(s) <==> c in s
  {
    var a, b := TrimSpacePads(s);
    var t, u := TrimSpace(s), BareName(s);
    assert c in s <==> c in t;
    BareNameIff(s, u);
    assert c in t <==> c in u;
    LoweringKeepsWildcard(u, c);
  }

  lemma LoweringKeepsWildcard(u: string, c: char)
    requires IsWildcard(c)
    ensures c in ToLower(u) <==> c in u
  {
    if c in u {
      var i :| 0 <= i < |u| && u[i] == c;
      assert ToLower(u)[i] == c;
    }
    if c in ToLower(u) {
      var i :| 0 <= i < |u| && ToLower(u)[i] == c;
      assert u[i] == c;
    }
  }

  predicate NamesPattern(s: string) {
    '*' in s || '{' in s || '}' in s
  }

  ghost predicate RepeatsEarlier(routes: seq<SniRoute>, i: nat)
    requires i < |routes|
  {
    exists j :: 0 <= j < i && SameName(routes[j].serverName, routes[i].serverName)
  }

  /** What is wrong with route i, told from the routes as configured; the first that applies counts. */
  ghost predicate IsOffence(routes: seq<SniRoute>, i: nat, offence: Offence)
    requires i < |routes|
  {
    var name := routes[i].serverName;
    match offence
    case NameRequired => BareName(name) == ""
    case NotExact => BareName(name) != "" && NamesPattern(name)
    case EndpointRequired => BareName(name) != "" && !NamesPattern(name) && IsBlank(routes[i].endpoint)
    case Duplicate =>
      BareName(name) != "" && !NamesPattern(name) && !IsBlank(routes[i].endpoint) && RepeatsEarlier(routes, i)
  }

  lemma RepeatsIff(routes: seq<SniRoute>, i: nat)
    requires i < |routes|
    ensures Duplicates(KeysOf(routes), i) <==> RepeatsEarlier(routes, i)
  {
    var keys := KeysOf(routes);
    forall j | 0 <= j <= i
      ensures keys[j] == KeyOf(routes[j])
      ensures keys[j].name == keys[i].name <==> SameName(routes[j].serverName, routes[i].serverName)
    {
      KeyAt(routes, j);
      KeyAt(routes, i);
      NamesAlikeIff(routes[j].serverName, routes[i].serverName);
    }
  }

  /** The offence found is the one the configured route commits, and none is found exactly when it
      commits none. */
  lemma OffenceIff(routes: seq<SniRoute>, i: nat, offence: Offence)
    requires i < |routes|
    ensures OffenceAt(KeysOf(routes), i) == Some(offence) <==> IsOffence(routes, i, offence)
  {
    var name := routes[i].serverName;
    KeyAt(routes, i);
    NormalizedNameIs(name);
    NormalizingKeepsWildcard(name, '*');
    NormalizingKeepsWildcard(name, '{');
    NormalizingKeepsWildcard(name, '}');
    BlankIff(routes[i].endpoint);
    RepeatsIff(routes, i);
  }

  /** The routes that can be served: exact names, endpoints, and no name twice. */
  lemma AcceptableIff(routes: seq<SniRoute>)
    ensures Acceptable(KeysOf(routes)) <==>
            forall i :: 0 <= i < |routes| ==>
              && BareName(routes[i].serverName) != "" && !NamesPattern(routes[i].serverName)
              && !IsBlank(routes[i].endpoint) && !RepeatsEarlier(routes, i)
  {
    forall i | 0 <= i < |routes|
      ensures OffenceAt(KeysOf(routes), i) == None <==>
              && BareName(routes[i].serverName) != "" && !NamesPattern(routes[i].serverName)
              && !IsBlank(routes[i].endpoint) && !RepeatsEarlier(routes, i)
    {
      forall offence: Offence
        ensures OffenceAt(KeysOf(routes), i) == Some(offence) <==> IsOffence(routes, i, offence)
      {
        OffenceIff(routes, i, offence);
      }
      assert (exists offence :: IsOffence(routes, i, offence)) <==>
             || IsOffence(routes, i, NameRequired) || IsOffence(routes, i, NotExact)
             || IsOffence(routes, i, EndpointRequired) || IsOffence(routes, i, Duplicate);
    }
  }

  /** A lookup yields e exactly when some route for the same name has the endpoint e, up to
      surrounding spaces. */
  lemma {:induction false} ResolveIsRouting(routes: seq<SniRoute>, table: map<string, string>, serverName: string,
                                            e: string)
    requires Acceptable(KeysOf(routes)) && IsTableOf(table, KeysOf(routes))
    ensures Resolve(table, serverName) == Some(e) <==>
            exists i :: 0 <= i < |routes| && LeadsTo(routes[i], serverName, e)
  {
    var keys, name := KeysOf(routes), NormalizeServerName(serverName);
    forall i | 0 <= i < |routes|
      ensures keys[i] == KeyOf(routes[i]) && (keys[i].name == name <==> SameName(routes[i].serverName, serverName))
    {
      KeyAt(routes, i);
      NamesAlikeIff(routes[i].serverName, serverName);
    }
    if name in table {
      var i :| 0 <= i < |keys| && keys[i].name == name;
      assert Resolve(table, serverName) == Some(e) ==> LeadsTo(routes[i], serverName, e);
    }
  }

  /** A lookup yields e exactly when some route for the same name leads to e. */
  ghost predicate RoutesAs(table: map<string, string>, routes: seq<SniRoute>) {
    forall serverName, e :: Resolve(table, serverName) == Some(e) <==>
      exists i :: 0 <= i < |routes| && LeadsTo(routes[i], serverName, e)
  }

  lemma TableRoutes(table: map<string, string>, routes: seq<SniRoute>)
    requires Acceptable(KeysOf(routes)) && IsTableOf(table, KeysOf(routes))
    ensures RoutesAs(table, routes)
  {
    forall serverName, e
      ensures Resolve(table, serverName) == Some(e) <==>
              exists i :: 0 <= i < |routes| && LeadsTo(routes[i], serverName, e)
    {
      ResolveIsRouting(routes, table, serverName, e);
    }
  }

  predicate LeadsTo(route: SniRoute, serverName: string, e: string) {
    SameName(route.serverName, serverName) && TrimSpace(route.endpoint) == e
  }

  /** Case, surrounding spaces and one final dot of the query do not matter. */
  lemma ResolveSameName(table: map<string, string>, s: string, t: string)
    requires SameName(s, t)
    ensures Resolve(table, s) == Resolve(table, t)
  {
    NamesAlikeIff(s, t);
  }

  /** At most one route can match a name. */
  lemma MatchIsUnique(keys: seq<Keyed>, i: nat, j: nat)
    requires Acceptable(keys) && i < |keys| && j < |keys| && keys[i].name == keys[j].name
    ensures i == j
  {
    assert OffenceAt(keys, i) == None && OffenceAt(keys, j) == None;
  }

  /** A lookup succeeds exactly when one route, and only one, has the once-normalised name; it
      yields that route's endpoint. */
  lemma ResolveIffOneRoute(table: map<string, string>, keys: seq<Keyed>, serverName: string, endpoint: string)
    requires Acceptable(keys) && IsTableOf(table, keys)
    ensures Resolve(table, serverName) == Some(endpoint) <==>
            exists i :: IsOnlyMatch(keys, NormalizeServerName(serverName), endpoint, i)
  {
    var name := NormalizeServerName(serverName);
    if name in table {
      var i :| 0 <= i < |keys| && keys[i].name == name;
      forall j | 0 <= j < |keys| && keys[j].name == name
        ensures j == i
      {
        MatchIsUnique(keys, i, j);
      }
      assert Resolve(table, serverName) == Some(endpoint) ==> IsOnlyMatch(keys, name, endpoint, i);
    }
  }

  ghost predicate IsOnlyMatch(keys: seq<Keyed>, name: string, endpoint: string, i: nat) {
    && i < |keys| && keys[i] == Keyed(name, endpoint)
    && forall j :: 0 <= j < |keys| && keys[j].name == name ==> j == i
  }

  /** A name that normalises to nothing, or holds a wildcard, never matches; a match never yields
      an empty endpoint. */
  lemma ResolveIsSafe(table: map<string, string>, routes: seq<SniRoute>, q: string)
    requires Acceptable(KeysOf(routes)) && IsTableOf(table, KeysOf(routes))
    ensures NormalizeServerName(q) == "" || HasWildcard(NormalizeServerName(q)) ==> Resolve(table, q) == None
    ensures Resolve(table, q).Some? ==> Resolve(table, q).value != "" && IsTrimmed(Resolve(table, q).value)
  {
    var keys, name := KeysOf(routes), NormalizeServerName(q);
    if name in table {
      var i :| 0 <= i < |keys| && keys[i].name == name;
      assert OffenceAt(keys, i) == None;
      KeyAt(routes, i);
    }
  }

  /** reordered lists the elements of keys in the order p; q is the way back. */
  ghost predicate IsReordering(keys: seq<Keyed>, reordered: seq<Keyed>, p: seq<nat>, q: seq<nat>) {
    && |keys| == |reordered| == |p| == |q|
    && (forall i :: 0 <= i < |p| ==> p[i] < |p| && reordered[i] == keys[p[i]] && q[p[i]] == i)
    && (forall i :: 0 <= i < |q| ==> q[i] < |q| && keys[i] == reordered[q[i]] && p[q[i]] == i)
  }

  /** The order of the routes does not matter: any reordering of acceptable routes is acceptable
      and gives the same table. */
  lemma RouteOrderIrrelevant(keys: seq<Keyed>, reordered: seq<Keyed>, p: seq<nat>, q: seq<nat>,
                             table: map<string, string>, table': map<string, string>)
    requires Acceptable(keys) && IsReordering(keys, reordered, p, q)
    requires IsTableOf(table, keys) && IsTableOf(table', reordered)
    ensures Acceptable(reordered) && table == table'
  {
    forall i | 0 <= i < |reordered|
      ensures OffenceAt(reordered, i) == None
    {
      assert OffenceAt(keys, p[i]) == None;
      if j :| 0 <= j < i && reordered[j].name == reordered[i].name {
        MatchIsUnique(keys, p[i], p[j]);
        assert false;
      }
    }
    TableIncluded(keys, reordered, q, table, table');
    TableIncluded(reordered, keys, p, table', table);
  }

  lemma TableIncluded(keys: seq<Keyed>, others: seq<Keyed>, q: seq<nat>, table: map<string, string>,
                      others': map<string, string>)
    requires IsTableOf(table, keys) && IsTableOf(others', others) && |q| == |keys|
    requires forall i :: 0 <= i < |q| ==> q[i] < |others| && keys[i] == others[q[i]]
    ensures forall name :: name in table ==> name in others' && others'[name] == table[name]
  {
    forall name | name in table
      ensures name in others' && others'[name] == table[name]
    {
      var i :| 0 <= i < |keys| && keys[i].name == name;
      assert others[q[i]].name == name;
    }
  }
}
