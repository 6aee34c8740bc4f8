/** The registry that lets configuration reloads share one running client, and the leases that
    hold it. Entries are cells updated in place; Contents is the map they stand for. */
module ClientRegistry {
  import opened Wrappers
  import opened ClientConfig

  /** One registered runtime and the number of release closures outstanding for it. */
  datatype Entry<+R> = Entry(runtime: R, refs: int)

  /** The map after an acquire; made is the runtime a successful factory returned. */
  function Acquired<R>(m: map<Identity, Entry<R>>, id: Identity, made: Option<R>): map<Identity, Entry<R>> {
    if id in m then m[id := m[id].(refs := m[id].refs + 1)]
    else if made.Some? then m[id := Entry(made.value, 1)]
    else m
  }

  /** The map after a release. */
  function Released<R>(m: map<Identity, Entry<R>>, id: Identity): map<Identity, Entry<R>> {
    if id !in m then m
    else if m[id].refs - 1 > 0 then m[id := m[id].(refs := m[id].refs - 1)]
    else m - {id}
  }

  /** The runtime the releasing caller must stop once the registry is unlocked. */
  function LastHolderStops<R>(m: map<Identity, Entry<R>>, id: Identity): Option<R> {
    if id in m && m[id].refs - 1 <= 0 then Some(m[id].runtime) else None
  }

  /** The release closure captures the identity and nothing else. */
  datatype ReleaseClosure = ReleaseClosure(identity: Identity)

  datatype FactoryError = FactoryError

  datatype Acquisition = Acquisition(release: ReleaseClosure, reused: bool, refs: int)

  /** The runtime client the registry owns. */
  class RuntimeClient {
    var cancelSet: bool
    var starts: nat
    var cancels: nat
    var stopOnceDone: bool

    constructor ()
      ensures !cancelSet && starts == 0 && cancels == 0 && !stopOnceDone
    {
      cancelSet, starts, cancels, stopOnceDone := false, 0, 0, false;
    }

    method Start()
      modifies this
      ensures cancelSet && starts == old(starts) + 1
      ensures cancels == old(cancels) && stopOnceDone == old(stopOnceDone)
    {
      cancelSet := true;
      starts := starts + 1;
    }

    /** stopOnce lets only the first call cancel the session and wait for it. */
    method Stop()
      modifies this
      ensures stopOnceDone && starts == old(starts) && cancelSet == old(cancelSet)
      ensures cancels == old(cancels) + (if !old(stopOnceDone) && cancelSet then 1 else 0)
    {
      if !stopOnceDone {
        stopOnceDone := true;
        if cancelSet {
          cancels := cancels + 1;
        }
      }
    }

    ghost predicate Running()
      reads this
    {
      cancelSet && starts == 1 && cancels == 0 && !stopOnceDone
    }

    /** Started once and cancelled once. */
    ghost predicate Stopped()
      reads this
    {
      stopOnceDone && starts == 1 && cancels == 1
    }
  }

  class Cell {
    var runtime: RuntimeClient
    var refs: int

    constructor (runtime: RuntimeClient)
      ensures this.runtime == runtime && refs == 1
    {
      this.runtime, this.refs := runtime, 1;
    }
  }

  class Registry {
    var entries: map<Identity, Cell>
    ghost var contents: map<Identity, Entry<RuntimeClient>>

    constructor ()
      ensures Valid() && contents == map[] && entries == map[]
    {
      entries, contents := map[], map[];
    }

    /** contents is the value of the cells; no two identities share a cell or a runtime, and every
        registered runtime is running. */
    ghost predicate Valid()
      reads this, entries.Values, set id | id in contents :: contents[id].runtime
    {
      && contents.Keys == entries.Keys
      && (forall id :: id in entries ==>
            contents[id] == Entry(entries[id].runtime, entries[id].refs) && contents[id].refs >= 1)
      && (forall id, id' :: id in entries && id' in entries && id != id' ==>
            entries[id] != entries[id'] && contents[id].runtime != contents[id'].runtime)
      && (forall id :: id in contents ==> contents[id].runtime.Running())
    }

    ghost predicate Registered(client: RuntimeClient)
      reads this
    {
      exists id :: id in contents && contents[id].runtime == client
    }

    /** The cell of an identity, if it has one. */
    ghost function CellAt(id: Identity): set<Cell>
      reads this
    {
      if id in entries then {entries[id]} else {}
    }

    ghost function RuntimeAt(id: Identity): set<RuntimeClient>
      reads this
    {
      if id in contents then {contents[id].runtime} else {}
    }

    method Acquire(id: Identity, factoryFails: bool) returns (r: Result<Acquisition, FactoryError>)
      requires Valid()
      modifies this, CellAt(id)
      ensures Valid() && forall k :: k in old(entries) ==> k in entries && entries[k] == old(entries)[k]
      ensures id in old(contents) ==>
                && contents == Acquired(old(contents), id, None)
                && r == Ok(Acquisition(ReleaseClosure(id), true, old(contents)[id].refs + 1))
      ensures id !in old(contents) && factoryFails ==> r.Err? && contents == old(contents)
      ensures id !in old(contents) && !factoryFails ==>
                && id in contents && fresh(contents[id].runtime) && contents[id].runtime.Running()
                && contents == Acquired(old(contents), id, Some(contents[id].runtime))
                && r == Ok(Acquisition(ReleaseClosure(id), false, 1))
    {
      if id in entries {
        var refs := Retain(id);
        return Ok(Acquisition(ReleaseClosure(id), true, refs));
      }
      if factoryFails {
        return Err(FactoryError);
      }
      var client := new RuntimeClient();
      client.Start();
      Register(id, client);
      r := Ok(Acquisition(ReleaseClosure(id), false, 1));
    }

    /** One more holder of a registered runtime. */
    method Retain(id: Identity) returns (refs: int)
      requires Valid() && id in entries
      modifies this`contents, entries[id]
      ensures Valid() && refs == old(contents)[id].refs + 1
      ensures contents == Acquired(old(contents), id, None)
    {
      var cell := entries[id];
      cell.refs := cell.refs + 1;
      contents := Acquired(contents, id, None);
      refs := cell.refs;
    }

    /** The first holder of a runtime that was just started. */
    method Register(id: Identity, client: RuntimeClient)
      requires Valid() && id !in entries && client.Running() && !Registered(client)
      modifies this
      ensures Valid() && forall k :: k in old(entries) ==> k in entries && entries[k] == old(entries)[k]
      ensures contents == Acquired(old(contents), id, Some(client))
    {
      var cell := new Cell(client);
      entries := entries[id := cell];
      contents := Acquired(contents, id, Some(client));
    }

    /** The part of release that runs under the registry lock. */
    method Unregister(id: Identity) returns (client: Option<RuntimeClient>)
      requires Valid()
      modifies this, CellAt(id)
      ensures Valid()
      ensures contents == Released(old(contents), id)
      ensures client == LastHolderStops(old(contents), id)
      ensures client.Some? ==> !Registered(client.value) && client.value.Running()
    {
      if id !in entries {
        return None;
      }
      var cell := entries[id];
      cell.refs := cell.refs - 1;
      contents := Released(contents, id);
      if cell.refs > 0 {
        return None;
      }
      entries := entries - {id};
      client := Some(cell.runtime);
    }

    /** The whole release closure: the last holder stops the client after unlocking. */
    method Release(id: Identity) returns (stopped: Option<RuntimeClient>)
      requires Valid()
      modifies this, CellAt(id), RuntimeAt(id)
      ensures Valid()
      ensures contents == Released(old(contents), id)
      ensures stopped == LastHolderStops(old(contents), id)
      ensures stopped.Some? ==> !Registered(stopped.value) && stopped.value.Stopped()
      ensures id in old(contents) && stopped.None? ==> unchanged(old(contents)[id].runtime)
    {
      stopped := Unregister(id);
      if stopped.Some? {
        stopped.value.Stop();
      }
    }
  }

  class Lease {
    const identity: Identity
    var release: Option<ReleaseClosure>

    constructor (identity: Identity)
      ensures this.identity == identity && release == None
    {
      this.identity := identity;
      release := None;
    }

    method Start(registry: Registry, factoryFails: bool) returns (ok: bool)
      requires registry.Valid()
      modifies this, registry, registry.CellAt(identity)
      ensures registry.Valid()
      ensures forall k :: k in old(registry.entries) ==>
                k in registry.entries && registry.entries[k] == old(registry.entries)[k]
      ensures old(release).Some? ==> ok && release == old(release) && registry.contents == old(registry.contents)
      ensures old(release).None? ==> ok == (identity in old(registry.contents) || !factoryFails)
      ensures old(release).None? && !ok ==> release == None && registry.contents == old(registry.contents)
      ensures old(release).None? && ok ==>
                && release == Some(ReleaseClosure(identity)) && identity in registry.contents
                && registry.contents == Acquired(old(registry.contents), identity,
                                                 Some(registry.contents[identity].runtime))
                && (identity !in old(registry.contents) ==>
                      fresh(registry.contents[identity].runtime) && registry.contents[identity].runtime.Running())
    {
      if release.Some? {
        return true;
      }
      var acquired := registry.Acquire(identity, factoryFails);
      if acquired.Err? {
        return false;
      }
      release := Some(acquired.value.release);
      return true;
    }

    /** Takes the closure first, so a second Stop finds nothing to release. */
    method Stop(registry: Registry) returns (stopped: Option<RuntimeClient>)
      requires registry.Valid() && (release.Some? ==> release.value.identity == identity)
      modifies this, registry, registry.CellAt(identity), registry.RuntimeAt(identity)
      ensures registry.Valid() && release == None
      ensures old(release).None? ==> stopped == None && registry.contents == old(registry.contents)
      ensures old(release).Some? ==>
                && registry.contents == Released(old(registry.contents), identity)
                && stopped == LastHolderStops(old(registry.contents), identity)
      ensures stopped.Some? ==> stopped.value.Stopped()
      ensures identity in old(registry.contents) && stopped.None? ==>
              unchanged(old(registry.contents)[identity].runtime)
    {
      var taken := release;
      release := None;
      if taken.None? {
        return None;
      }
      stopped := registry.Release(taken.value.identity);
    }
  }

  /** A reload: the new configuration's lease starts, and only then does the old one stop. */
  method Reload(registry: Registry, current: Lease, next: Lease, factoryFails: bool)
    returns (ok: bool, stopped: Option<RuntimeClient>)
    requires registry.Valid() && current != next && next.release == None
    requires current.release == Some(ReleaseClosure(current.identity)) && current.identity in registry.contents
    modifies current, next, registry, registry.RuntimeAt(current.identity)
    modifies registry.CellAt(current.identity), registry.CellAt(next.identity)
    ensures registry.Valid()
    ensures ok == (next.identity in old(registry.contents) || !factoryFails)
    // A failed start leaves the old lease and every entry as they were.
    ensures !ok ==>
              && registry.contents == old(registry.contents)
              && current.release == old(current.release) && next.release == None
    ensures ok ==>
              && current.release == None && next.release == Some(ReleaseClosure(next.identity))
              && next.identity in registry.contents
              && registry.contents == ReloadedEntries(old(registry.contents), current.identity, next.identity,
                                                      registry.contents[next.identity].runtime)
    // An unchanged identity keeps the runtime running and never consults the factory.
    ensures next.identity == current.identity ==>
              ok && stopped == None && registry.contents == old(registry.contents)
    // A changed identity stops the old runtime exactly when no other lease holds it.
    ensures ok && next.identity != current.identity ==>
              stopped == LastHolderStops(old(registry.contents), current.identity)
    ensures !ok ==> stopped == None
    // A runtime that is handed back was cancelled; otherwise the old one was not touched.
    ensures stopped.Some? ==> stopped.value.Stopped()
    ensures stopped.None? ==> unchanged(old(registry.contents)[current.identity].runtime)
    ensures ok ==> registry.contents[next.identity].runtime.Running()
  {
    ghost var was := registry.contents[current.identity].runtime;
    ok := next.Start(registry, factoryFails);
    assert unchanged(was);
    if !ok {
      return false, None;
    }
    label started:
    ghost var kept := registry.contents[next.identity].runtime;
    OverlapKeepsEntries(old(registry.contents), current.identity, next.identity, kept);
    assert registry.contents[current.identity].runtime == was;
    stopped := current.Stop(registry);
    assert unchanged@started(next);
    assert next.identity in registry.contents && registry.contents[next.identity].runtime == kept;
  }

  /** Acquiring before releasing: the overlap leaves an unchanged identity's entry as it was and
      does not decide whether another identity's runtime stops. */
  lemma OverlapKeepsEntries<R>(m: map<Identity, Entry<R>>, current: Identity, next: Identity, runtime: R)
    requires current in m && m[current].refs >= 1
    ensures Acquired(m, next, Some(runtime))[current].runtime == m[current].runtime
    ensures next == current ==> ReloadedEntries(m, current, next, runtime) == m
    ensures next == current ==> LastHolderStops(Acquired(m, next, Some(runtime)), current) == None
    ensures next != current ==>
              && LastHolderStops(Acquired(m, next, Some(runtime)), current) == LastHolderStops(m, current)
              && next in ReloadedEntries(m, current, next, runtime)
              && ReloadedEntries(m, current, next, runtime)[next] == Acquired(m, next, Some(runtime))[next]
  {
  }

  function ReloadedEntries<R>(m: map<Identity, Entry<R>>, current: Identity, next: Identity, runtime: R)
    : map<Identity, Entry<R>>
  {
    Released(Acquired(m, next, Some(runtime)), current)
  }
}
