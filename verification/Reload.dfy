/** Any number of configuration reloads, one after another, each starting the new lease before it
    stops the old one. The entries change as in ClientRegistry.Reload. */
module Reload {
  import opened Wrappers
  import opened ClientConfig
  import opened ClientRegistry

  datatype Event = Started(runtime: nat, identity: Identity) | Stopped(runtime: nat)

  /** A requested configuration, and whether the factory would fail if it were run for it. */
  datatype Request = Request(identity: Identity, factoryFails: bool)

  datatype World = World(entries: map<Identity, Entry<nat>>, held: Option<Identity>, built: nat, log: seq<Event>)

  function StartLease(w: World, r: Request): Option<World> {
    if r.identity in w.entries then Some(w.(entries := Acquired(w.entries, r.identity, None)))
    else if r.factoryFails then None
    else Some(w.(entries := Acquired(w.entries, r.identity, Some(w.built)),
                 built := w.built + 1,
                 log := w.log + [Started(w.built, r.identity)]))
  }

  function StopLease(w: World, id: Identity): World {
    match LastHolderStops(w.entries, id)
    case None => w.(entries := Released(w.entries, id))
    case Some(rt) => w.(entries := Released(w.entries, id), log := w.log + [Stopped(rt)])
  }

  function ReloadOnce(w: World, r: Request): World {
    match StartLease(w, r)
    case None => w
    case Some(started) =>
      var swapped := if w.held.Some? then StopLease(started, w.held.value) else started;
      swapped.(held := Some(r.identity))
  }

  /** One reload of the sequence does what the method Reload of the registry promises: the same
      entries, a start exactly when the factory runs and succeeds, and then a stop exactly when the
      identity changed and nobody else holds the old one. */
  lemma ReloadOnceIsRegistryReload(w: World, r: Request)
    requires w.held.Some? && w.held.value in w.entries && w.entries[w.held.value].refs >= 1
    ensures var ok, previous := r.identity in w.entries || !r.factoryFails, w.held.value;
            var stopped := if ok && r.identity != previous then LastHolderStops(w.entries, previous) else None;
            var w' := ReloadOnce(w, r);
            && w'.held == (if ok then Some(r.identity) else w.held)
            && w'.entries == (if ok then ReloadedEntries(w.entries, previous, r.identity, w.built) else w.entries)
            && w'.log == w.log
                         + (if r.identity !in w.entries && ok then [Started(w.built, r.identity)] else [])
                         + (if stopped.Some? then [Stopped(stopped.value)] else [])
  {
    OverlapKeepsEntries(w.entries, w.held.value, r.identity, w.built);
  }

  function Reloads(requests: seq<Request>): World {
    if requests == [] then World(map[], None, 0, [])
    else ReloadOnce(Reloads(requests[..|requests| - 1]), requests[|requests| - 1])
  }

  /** The maximal stretches of equal identities among the configurations that could be served. */
  function Stretches(requests: seq<Request>): seq<Identity> {
    if requests == [] then []
    else
      var earlier, r := Stretches(requests[..|requests| - 1]), requests[|requests| - 1];
      if earlier != [] && earlier[|earlier| - 1] == r.identity then earlier
      else if r.factoryFails then earlier
      else earlier + [r.identity]
  }

  /** One start for each stretch, each followed by the stop of the stretch before it. */
  function Timeline(stretches: seq<Identity>): seq<Event> {
    if stretches == [] then []
    else
      var k := |stretches| - 1;
      Timeline(stretches[..k]) + [Started(k, stretches[k])] + (if k > 0 then [Stopped(k - 1)] else [])
  }

  /** After any reloads exactly the last stretch's runtime is registered, held once; the factory
      succeeded once for each stretch; and the starts and stops are those of the timeline. */
  lemma {:induction false} ReloadsFollowStretches(requests: seq<Request>)
    ensures var w, st := Reloads(requests), Stretches(requests);
            && w.built == |st|
            && w.log == Timeline(st)
            && w.held == (if st == [] then None else Some(st[|st| - 1]))
            && w.entries == (if st == [] then map[] else map[st[|st| - 1] := Entry(|st| - 1, 1)])
  {
    if requests != [] {
      var before, r := requests[..|requests| - 1], requests[|requests| - 1];
      ReloadsFollowStretches(before);
      var st := Stretches(before);
      if st + [r.identity] == Stretches(requests) {
        assert Stretches(requests)[..|st|] == st;
      }
    }
  }

  /** Neighbouring stretches differ, so a stretch is as long as it can be. */
  lemma {:induction false} StretchesAreMaximal(requests: seq<Request>, k: nat)
    requires k + 1 < |Stretches(requests)|
    ensures Stretches(requests)[k] != Stretches(requests)[k + 1]
  {
    var before := requests[..|requests| - 1];
    if k + 1 < |Stretches(before)| {
      StretchesAreMaximal(before, k);
    }
  }

  /** A changed identity starts the new runtime before the old one stops, and every runtime but
      the last is stopped exactly there. */
  lemma {:induction false} NewStartsBeforeOldStops(stretches: seq<Identity>, k: nat)
    requires 1 <= k < |stretches|
    ensures |Timeline(stretches)| == 2 * |stretches| - 1
    ensures Timeline(stretches)[2 * k - 1] == Started(k, stretches[k])
    ensures Timeline(stretches)[2 * k] == Stopped(k - 1)
  {
    var n := |stretches| - 1;
    if n == 1 {
      assert Timeline(stretches[..1]) == [Started(0, stretches[0])];
    } else {
      NewStartsBeforeOldStops(stretches[..n], if k < n then k else n - 1);
    }
  }

  /** A reload fails exactly when the factory fails and the identity is not that of the last
      stretch. Then nothing changes: the last stretch's runtime stays registered, held once. */
  lemma ReloadFailsIff(requests: seq<Request>, r: Request)
    ensures var w, st := Reloads(requests), Stretches(requests);
            var fails := r.factoryFails && (st == [] || st[|st| - 1] != r.identity);
            && (StartLease(w, r) == None <==> fails)
            && (fails ==> Reloads(requests + [r]) == w)
            && (fails && st != [] ==>
                  w.held == Some(st[|st| - 1]) && w.entries == map[st[|st| - 1] := Entry(|st| - 1, 1)])
            && (!fails ==> Reloads(requests + [r]).held == Some(r.identity))
  {
    ReloadsFollowStretches(requests);
    assert (requests + [r])[..|requests|] == requests;
  }
}
