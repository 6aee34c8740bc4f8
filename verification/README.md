# caddy-bifrost, verified

A Dafny model of the parts of the Caddy adapter for Bifrost in which state, concurrency or string
handling carries the meaning, and proofs of what they promise. `dafny verify dfyconfig.toml` checks
everything.

**Shared clients.** A Caddy reload builds the new configuration's lease before it drops the old one,
and a registry keyed by the normalised configuration lets both share one tunnel. `ClientRegistry`
holds the registry, lease and client objects, updated in place; the map after each operation is one
of `Acquired`, `Released` and `LastHolderStops`. `ClientProtocol` runs the same three functions in a
transition system over any number of leases and threads. A step there is a critical section, or the
part of one up to the next point where the thread may wait: a mutex, the factory, or the client's own
shutdown. Because these steps are finer than whole calls, the count of an entry has three terms:
closures held by leases, closures a `Start` was given and has not stored yet, and closures a `Stop`
took and has not run yet. The `origin` of a closure is a record for the proofs; no step reads it, and
it is how one can say that a closure releases the entry it was made for although it captures only the
identity. `ClientProtocolAlone` ties the two forms together: the steps of a call that nobody interrupts
do what the methods promise. `Reload` follows any sequence of reloads and gives their whole timeline of starts and stops.

**Addresses and names.** `HostPort` transcribes Go's `net.SplitHostPort` and `net.JoinHostPort` and
proves the grammar they accept. On it rest the connector address (`ConnectAddress`), the identity
(`ClientConfig`), the endpoint key behind a dial address (`DialEndpoint`) and the SNI routes
(`Routes`). Some expectations turn out false and are replaced by exact conditions. Normalising a
connector address twice can differ from normalising it once, as for `[ a]`; `NormalizeIdempotentIff`
says for which addresses it does not, and `RunningClientMatchesIdentityIff` what that means for the
client that runs under an identity. Normalising a server name is not idempotent either (`a..`). And two
addresses with the same host and port can still be two identities, as `[a]:1` and `a:1` are;
`NormalizeAlikeIff` gives the exact notion of a destination.

**Passthrough.** `Peek` treats the TLS handshake as any sequence of reads and writes. `Listener` runs
the accept loop over any arrivals, `StreamLifecycle` is the per-stream observer state, `StreamHistory`
says which histories of marks are possible, and `StreamInterleaving` lets any number of callers mark
under the mutex and deliver outside it. Ordering is proved of marks; deliveries agree with marks as
multisets. Each mark carries its place in lock order, which is the order of the `ObservedAt` times, as the
clock is read under the mutex; so two reports that are otherwise alike are still told apart. `StreamOrder`
says when deliveries agree with marks in order too: exactly if no call marks anything while an earlier
mark waits for delivery. Calls made one at a time always do; two calls in flight together can be delivered
out of order exactly when, taken in one order or the other, both mark, so any two reports on an open
stream can.

**Configuration and metrics.** What normalisation does is stated on the configured fields (`IsNormalized`,
`NormalizesTo`), and parsing, validation and conversion rest on those statements. `ServerConfig` validates static endpoints and converts them for the
core, `Caddyfile` parses directives, `CaddyfileGrammar` says which directives it accepts,
`CaddyfileTheorems` what a parse yields block by block, `CaddyfileMeaning` composes this into the
configuration any accepted file means and `CaddyfileErrors` says why any other is refused, and `Metrics` accounts for every call on the observers and stream
handles of one registry.

## Model

| member | source | states |
|---|---|---|
| `ClientProtocolTheorems.RefsCountClosures` | client_runtime.go:64-162 | In every reachable state of any interleaving an entry exists exactly when some release closure for its identity is outstanding, and its count is the number of those closures |
| `ClientProtocolTheorems.ReleaseFindsItsOwnEntry` | client_runtime.go:101-162 | A Stop about to release always finds the entry, and in it the very runtime its acquire returned; the missing-entry branch is unreachable |
| `ClientProtocolTheorems.RuntimeLifecycle` | client_runtime.go:119-162 | Every runtime is started once and is registered, in the hands of exactly one stopper, or stopped once; while any closure refers to it, it is registered |
| `ClientProtocolTheorems.AliveRuntimes` | client_runtime.go:125-162 | For each identity the runtimes started and not yet stopped are exactly the registered one, at most one, and those in the hands of a stopper |
| `ClientProtocolTheorems.TwoCanBeAlive` | client_runtime.go:142-162 | A reachable state with two: a Start finds the entry gone and builds a second runtime before the first is stopped |
| `ClientProtocolTheorems.QuiescentMeansStopped` | client_runtime.go:101-162 | With no call in flight and no lease holding a closure the map is empty and every started runtime has been stopped |
| `ClientProtocolTheorems.KeptWhileHeld` | client_runtime.go:119-162 | As long as one closure for an identity stays outstanding, its runtime is the same one, is not stopped, and the factory does not run for it |
| `ClientProtocolTheorems.EntriesFrozenDuringFactory` | client_runtime.go:123-136 | While one thread runs the factory no entry changes, so a failed start leaves entries, counts and its own lease as they were |
| `ClientProtocolTheorems.SomeThreadCanStep` | client_runtime.go:68-73 | No deadlock: whenever a call is in flight some thread can step |
| `ClientProtocolTheorems.CallsFinish` | client_runtime.go:101-162 | Without new calls the steps left are bounded by a measure, and when no step is possible every call has returned |
| `ClientProtocolInvariant.StepPreservesInv` | client_runtime.go:64-162 | Every step keeps the invariant over locks, leases, threads, entries and runtimes |
| `ClientProtocolInvariant.OutstandingUpdate` | client_runtime.go:101-113 | How moving a closure between a lease and a thread changes the number outstanding |
| `ClientProtocolAlone.StartAloneIsLeaseStart` | client_runtime.go:64-99 | The steps of a Start that nobody interrupts change leases, entries and runtimes as Lease.Start does |
| `ClientProtocolAlone.StopAloneIsLeaseStop` | client_runtime.go:101-113 | In a reachable state the steps of a Stop that nobody interrupts change leases, entries and runtimes as Lease.Stop does; the last holder's runtime is stopped once |
| `ClientProtocolAlone.AloneIsRun` | client_runtime.go:64-162 | Those steps are a run of the transition system |
| `ClientRegistry.Registry.Acquire` | client_runtime.go:119-140 | Reuses and counts an existing entry, registers a freshly started running client with count one, or changes nothing when the factory fails |
| `ClientRegistry.Registry.Unregister` | client_runtime.go:142-157 | The map loses one reference, or the entry and with it the client to be stopped; a client handed out is registered nowhere |
| `ClientRegistry.Registry.Release` | client_runtime.go:142-162 | Registered clients run; the last holder cancels the client once and it is registered nowhere; otherwise the client is not touched |
| `ClientRegistry.Lease.Start` | client_runtime.go:64-99 | A second Start does nothing; a failed one leaves lease and registry alone; a successful one stores the closure and acquires once |
| `ClientRegistry.Lease.Stop` | client_runtime.go:101-113 | Releases once, and a client handed back has been cancelled once; a second Stop does nothing |
| `ClientRegistry.RuntimeClient.Stop` | internal/runtime/client.go:85-96 | Only the first Stop of a started client cancels |
| `ClientRegistry.Reload` | client_reload_test.go:23-96 | Start new, then stop old: same identity keeps the runtime untouched and skips the factory; a changed one cancels the old runtime exactly when nobody else holds it, and otherwise leaves it untouched; a failed start changes nothing; afterwards the new identity's runtime runs |
| `ClientRegistry.OverlapKeepsEntries` | client_runtime.go:119-162 | Acquiring before releasing leaves an unchanged identity's entry as it was and does not alter who stops another one |
| `Reload.ReloadsFollowStretches` | client_reload_test.go:23-96 | After any reloads only the last stretch's runtime is registered, with one reference; the factory succeeded once per stretch; starts and stops are exactly the timeline of the stretches |
| `Reload.ReloadOnceIsRegistryReload` | client_runtime.go:64-113 | One reload of the sequence has the entries, the start and the stop that the registry's Reload promises |
| `Reload.StretchesAreMaximal` | client_reload_test.go:23-96 | Neighbouring stretches have different identities |
| `Reload.NewStartsBeforeOldStops` | client_reload_test.go:206-232 | A changed identity starts the new runtime immediately before the old one stops, and every runtime but the last is stopped there |
| `Reload.ReloadFailsIff` | client_runtime.go:132-135 | A reload fails exactly when the factory fails and the identity is not the last stretch's; then nothing changes and that stretch's runtime stays registered with one reference |
| `StreamHistory.MarkHistoryIsLegal` | passthrough_observer.go:56-156 | In any lock order the marks are a prefix of start, deltas, end or one rejection; each carries the keys of the resolution and a delta has bytes in exactly one direction |
| `StreamHistory.NothingAfterTerminal` | passthrough_observer.go:92-141 | After an end or a rejection no further call marks anything |
| `StreamHistory.PhaseTellsOpenedAndClosed` | passthrough_observer.go:56-141 | `started` and `ended` say exactly whether the calls so far opened and closed the stream, judged from the calls alone |
| `StreamHistory.HistoryIsExact` | passthrough_observer.go:34-156 | The marks are, event by event and with every field written out, a start, one delta for each positive amount reported before the close, and an end; or the one rejection with the first reason given, a blank one replaced by `stream_open_failed`; told from the calls alone |
| `StreamHistory.BytesAreConserved` | passthrough_observer.go:69-112 | Per direction the bytes marked are the positive amounts that took the mutex before the stream closed |
| `StreamHistory.TailSettlesStream` | listener.go:261-272 | Whatever the core did, the tail adds exactly these marks: an end if the stream is open; the rejection with the failure's own reason, and nothing else, if it failed unopened; otherwise none. So after an error there is one terminal event, and after success one end if opened and otherwise nothing |
| `StreamHistory.GoroutineTail` | listener.go:261-272 | The tail makes exactly the calls whose marks the previous row gives, and delivers them |
| `StreamHistory.RefusalMarksOneRejection` | passthrough_observer.go:160-163 | A refused connection reports exactly one rejection under its keys |
| `StreamInterleaving.ConcurrentMarksAreLegal` | passthrough_observer.go:34-156 | Under any interleaving of callers the marks are legal and conserve bytes |
| `StreamInterleaving.DeliveredEqualsMarked` | passthrough_observer.go:34-90 | Every mark has its own place, no mark is delivered twice, and with no call in flight all of them have been delivered |
| `StreamOrder.OrderKeptIff` | passthrough_observer.go:34-112 | Along any run no delivery can be out of the order in which the marks were stamped, exactly if no call marked anything while an earlier mark was waiting |
| `StreamOrder.SerialCallsStayInOrder` | passthrough_observer.go:34-90 | Calls started only when none is in flight deliver in mark order throughout, and everything once they have returned |
| `StreamOrder.QuietPairReordersIff` | passthrough_observer.go:34-112 | From any reachable state with everything delivered and nobody in flight, two calls made together can be delivered out of order exactly when, taken in one order or the other, both mark |
| `StreamOrder.ReportsCanReorder` | passthrough_observer.go:83-112 | So any two byte reports made together on a stream that has not ended can, even of equal direction and amount |
| `StreamOrder.DeliveryCanReorder` | passthrough_observer.go:83-90 | A run in which the end, marked third, is delivered before the start and the delta, marked first and second |
| `StreamLifecycle.PassthroughStreamLifecycle.MarkStarted` | passthrough_observer.go:56-67 | Marks what the specification says for a start |
| `StreamLifecycle.PassthroughStreamLifecycle.MarkUsageDelta` | passthrough_observer.go:92-112 | For any two amounts: nothing if neither is positive or the stream is over, else a delta with both, and before it a start if there was none |
| `StreamLifecycle.PassthroughStreamLifecycle.MarkEnded` | passthrough_observer.go:114-125 | Marks an end only after a start and only once |
| `StreamLifecycle.PassthroughStreamLifecycle.MarkRejected` | passthrough_observer.go:127-141 | Marks a rejection only before any start or end, with a default reason |
| `StreamLifecycle.PassthroughStreamLifecycle.AddBytes` | passthrough_observer.go:69-86 | Ignores non-positive amounts and unknown directions; otherwise delivers what it marked, in order |
| `Peek.PeekClientHelloServerName` | internal/netutil/netutil.go:18-43 | Whatever the handshake reads, writes and returns, the returned connection still holds every byte from where the peek began, on success and on error, and nothing was sent to the peer |
| `Peek.ReplayConn.Read` | internal/netutil/netutil.go:59-66 | Each read hands over the next bytes of what remains; end of file only when nothing remains; progress whenever the network makes some |
| `Peek.PeekThenRead` | internal/netutil/netutil.go:18-66 | Reads of any sizes after any peek yield a prefix of the original stream from its first byte, and all of it when they reach the end |
| `Listener.ServeAll` | listener.go:210-274 | Over a whole run the connections given to Caddy are, in order, exactly those whose peek failed or whose server resolved the name to no route, and each still holds everything its client sent |
| `Listener.BifrostListener.Accept` | listener.go:210-222 | Every accepted connection is accounted for with its own fate; a returned one replays completely |
| `Listener.BifrostListener.HandleConnection` | listener.go:224-274 | The connection is returned whole, closed with the rejection it calls for, or handed to a proxy under its resolution; which of these, `DispositionIff` tells |
| `Listener.DispositionIff` | internal/runtime/server.go:341-359 | Each fate, exactly, by the answer of the resolver itself at the peeked name: a failed peek or no route goes back, no server or an error or a blank endpoint is closed, any other answer is proxied under that answer; a plain resolver's endpoint has no observation key, an observing one's answer keeps both keys |
| `Listener.ReturnedAreGoingBack` | listener.go:224-253 | The log of returned connections is the filter of the arrivals by a failed peek or a resolver without a route for the name |
| `Listener.ProxiedAreToBeProxied` | listener.go:244-274 | The log of proxied connections is the filter of the arrivals whose resolver answers a non-blank endpoint |
| `Listener.ClosedAreToBeClosed` | listener.go:231-253 | The log of closed connections is the filter of the arrivals without a server, with a resolver error or with a blank endpoint |
| `Listener.RejectionsAreHeard` | listener.go:238-252 | The observer hears, in order, `resolver_error` without keys for each resolver error and `empty_endpoint` under the answer's keys for each blank endpoint, and nothing else |
| `Listener.EveryConnectionHasOneFate` | listener.go:210-274 | Returned, closed and proxied connections together are the accepted ones, each once |
| `Listener.NothingBlankIsProxied` | listener.go:244-263 | No stream is opened under a blank endpoint; the observer hears one refusal at most for each closed connection, and nothing else about connections not proxied |
| `Listener.ProxiedStreamsSettle` | listener.go:210-274 | Over a whole run, whatever the core does, each proxied connection goes to the non-blank resolution its resolver answered, all its marks carry that resolution's keys, and its stream settles: one end if opened, the one rejection with the failure's reason if it failed unopened, otherwise nothing |
| `Listener.StaticRoutesNeverRefuse` | internal/runtime/server.go:86-108 | With a static table no resolver error and no empty endpoint occurs: a match is proxied under a trimmed non-empty endpoint, the rest goes back to Caddy |
| `HostPort.SplitHostPortAcceptsGrammar` | internal/config/config.go:263 | Splitting succeeds on exactly `host:port` and `[host]:port`, with those parts |
| `HostPort.SplitUndoesJoin` | internal/config/config.go:263-278 | Splitting undoes joining exactly for bracket-free hosts and ports without colon or bracket |
| `HostPort.JoinedSplitsAsJoined` | internal/runtime/transport.go:85-92 | If a joined address splits, it gives back the host, or the host without its own brackets |
| `ConnectAddress.NormalizeIdempotentIff` | internal/config/config.go:258-279 | Normalising twice equals normalising once exactly for URLs, bracket-free addresses, `[h]` and `[h]:p` with a safe `h`, and `[[h]]` |
| `ConnectAddress.NormalizeNotIdempotent` | internal/config/config.go:258-279 | A concrete address on which a second pass changes the result |
| `ConnectAddress.DefaultPortSpellings` | internal/config/config.go:263-278 | `[h]`, `[h]:`, the bare host unless it has exactly one colon, `h:` for a name, and the host with port 8443 are one address, for names and IPv6 addresses |
| `ConnectAddress.NormalizeAlikeIff` | internal/config/config.go:258-279 | Any two addresses, URLs and implied ports included, normalise alike exactly when they lead to the same destination |
| `ConnectAddress.NormalizeYieldsIff` | internal/config/config.go:258-279 | What each address becomes, told from the address: blank gives blank, a URL and an address with a port are only trimmed, `[h]`, `h:` and every other address get the port 8443, with brackets around a host that has colons |
| `ConnectAddress.BracketsAreKept` | internal/config/config.go:263-268 | Host and port do not decide it: `[h]:p` and `h:p` split alike and normalise differently |
| `ConnectAddress.ExplicitAddressesDistinct` | internal/config/config.go:258-268 | Explicit addresses normalise alike exactly when host and port agree |
| `ConnectAddress.NormalizeBlankIff` | internal/config/config.go:258-262 | Only a blank address normalises to a blank one |
| `ClientConfig.RunningClientMatchesIdentityIff` | internal/runtime/client.go:39-53 | The address the running client uses is its identity's exactly when the configured address is stable; the other fields always agree |
| `ClientConfig.RepeatedNormalization` | internal/config/config.go:250-256 | On stable addresses any number of passes equals one |
| `ClientConfig.SharedIdentityIff` | client_runtime.go:164-180 | Two configurations share a client exactly when their addresses lead to the same destination and the five other fields agree up to surrounding space |
| `ClientConfig.NormalizeKeepsMissing` | internal/config/config.go:232-247 | Normalising never hides or creates a missing field, so the validation inside the factory repeats the first one's verdict |
| `ClientConfig.NormalizedIdentity` | client_runtime.go:164-180 | A fresh normalised copy, and its identity, each field told from the configured one, or the first required field that is blank |
| `ClientConfig.Client.Validate` | internal/config/config.go:232-256 | Leaves each field as the trimmed one it was and the address normalised; the error is the first required field that was blank |
| `DialEndpoint.DialAddressRecoversKeyIff` | internal/runtime/transport.go:80-105 | A key comes back from its joined dial address exactly when it is trimmed, non-empty and its brackets do not clash |
| `DialEndpoint.DialAddressesNeverCollide` | internal/runtime/transport.go:80-105 | Distinct recoverable keys have distinct dial addresses whatever the ports |
| `DialEndpoint.DialAddressRejectedIff` | internal/runtime/transport.go:80-105 | The addresses from which no endpoint can be derived, exactly |
| `DialEndpoint.EndpointFromDialAddress` | internal/runtime/transport.go:80-105 | Every success is trimmed and non-empty; which one it is, `DialAddressYieldsIff` tells |
| `DialEndpoint.DialAddressYieldsIff` | internal/runtime/transport.go:80-105 | The endpoint of every address, read off its trimmed text: what stands in a leading pair of brackets, else what stands before a single colon, else all of it; and which of the two errors a refused one gets |
| `Routes.NewRouteTable` | internal/config/routes.go:24-44 | Reports the least offending route with the offence it commits as configured, or builds a table that sends a name exactly where the configured routes for that name lead |
| `Routes.NamesAlikeIff` | internal/config/routes.go:52-56 | Two names normalise alike exactly when, trimmed and without one final dot, they agree up to ASCII case |
| `Routes.ResolveIsRouting` | internal/config/routes.go:24-56 | A lookup yields an endpoint exactly when it is the trimmed endpoint of a configured route for the same name |
| `Routes.ResolveSameName` | internal/config/routes.go:46-56 | Case, surrounding spaces and one final dot of the name looked up do not matter |
| `Routes.OffenceIff` | internal/config/routes.go:26-41 | Which offence a configured route commits: an empty name, a pattern, a blank endpoint, or the name of an earlier route, in this order |
| `Routes.AcceptableIff` | internal/config/routes.go:26-41 | Routes are accepted exactly when each has an exact name that no earlier one has and an endpoint |
| `Routes.ResolveAgreesWithScan` | internal/config/routes.go:46-50 | Lookup agrees with scanning the routes for the once-normalised name |
| `Routes.ResolveIffOneRoute` | internal/config/routes.go:38-50 | A lookup yields an endpoint exactly when one route and only one has the once-normalised name, and it is that route's |
| `Routes.RouteOrderIrrelevant` | internal/config/routes.go:24-44 | Any reordering of acceptable routes is acceptable and gives the same table |
| `Routes.ResolveIsSafe` | internal/config/routes.go:29-50 | Empty and wildcard names never match, and a match is never an empty endpoint |
| `Routes.NormalizeServerNameIdempotentIff` | internal/config/routes.go:52-56 | Exactly when normalising a server name twice changes nothing |
| `Routes.NormalizeServerNameNotIdempotent` | internal/config/routes.go:52-56 | A concrete name on which a second pass changes the result |
| `ServerConfig.Server.ValidateWithProvider` | internal/config/config.go:163-229 | Succeeds exactly on the acceptable configurations, otherwise reports the first check that fails and the value at fault; always leaves each endpoint in its place with its own key, token and policy trimmed and the rest as it was, the subject trimmed, and the listen address trimmed or `:8443` |
| `ServerConfig.AcceptableIff` | internal/config/config.go:183-229 | The acceptable configurations, told from the fields as configured |
| `ServerConfig.NormalizedIff` | internal/config/config.go:163-174 | The normalised configuration is determined by the configured one, field by field |
| `ServerConfig.CheckGuardrailsIff` | internal/config/config.go:364-390 | The guardrail fault reported is the first that is there |
| `ServerConfig.CheckTuningIff` | internal/config/config.go:406-420 | The tuning field reported is the first negative one |
| `ServerConfig.Server.StaticClients` | internal/config/config.go:299-312 | Converts the endpoints in order; fails with the least endpoint that does not convert and its error, or because the core refuses the converted list |
| `ServerConfig.AcceptableIsSound` | internal/config/config.go:183-216 | After static validation keys and tokens are trimmed and non-empty, keys are distinct, and timeouts equal their seconds exactly |
| `ServerConfig.RevalidationIsStable` | internal/config/config.go:163-229 | Validating again accepts the same configurations and changes nothing |
| `ServerConfig.NewStaticServer` | internal/runtime/server.go:132-145 | After a successful validation the second conversion cannot fail and lists the conversions of the endpoints in order; the configuration is left normalised field by field |
| `ServerConfig.StaticClientsKeepEndpoints` | internal/config/config.go:314-361 | Each converted client carries the key, token, policy and limits of the endpoint as configured, trimmed, the timeout in whole seconds, and keys stay distinct |
| `ServerConfig.ConvertsIff` | internal/config/config.go:314-361 | What an endpoint converts to, field by field, and that it fails exactly for a positive timeout that is not in whole seconds |
| `ServerConfig.ValidLimitsIff` | internal/config/config.go:331-361 | Limits are valid exactly when not negative and in whole seconds, the seconds the plan carries |
| `ServerConfig.LimitErrorIff` | internal/config/config.go:331-344 | Which limits error is reported, in the order of the checks |
| `CaddyfileTheorems.ServerRoundTrip` | internal/caddyfile/app.go:23-41 | Parsing the rendering of any server configuration yields it back, each field trimmed or defaulted as normalisation does and otherwise unchanged |
| `CaddyfileTheorems.ClientRoundTrip` | internal/caddyfile/app.go:42-59 | Parsing the rendering of any client configuration yields it back, each field trimmed and the address normalised |
| `CaddyfileMeaning.ParseAppIff` | internal/caddyfile/app.go:13-65 | Parsing succeeds exactly when no top-level directive has arguments and at most one runtime is written in all of them, with every directive in it allowed; the result is its meaning, never both runtimes |
| `CaddyfileMeaning.RuntimeMeans` | internal/caddyfile/app.go:23-358 | Any server or client whose directives are allowed parses to the configuration read off by last writes, merged blocks and endpoint order, each field then normalised |
| `CaddyfileErrors.ParseAppErrIff` | internal/caddyfile/app.go:13-65 | Which error a refused file gets: that of the first item in its top-level directives, or, if that is an allowed runtime, of the second, which is refused for being one runtime too many, for its unknown name, or for standing where no argument may |
| `CaddyfileErrors.RuntimeErrIff` | internal/caddyfile/app.go:23-430 | A refused runtime gets the error of the first directive, at every depth, that is not allowed there: wrong arguments before an unreadable integer or duration, before a block that has no place; unknown names; names no longer supported |
| `CaddyfileGrammar.RuntimeOkIff` | internal/caddyfile/app.go:84-358 | A server or client parses exactly when every directive in it, at every depth, has a known name, the right number of arguments and a readable value |
| `CaddyfileTheorems.EndpointMerges` | internal/caddyfile/app.go:126-168 | Endpoint scalars are the last ones written and repeated limits blocks act as one |
| `CaddyfileTheorems.EndpointsKeepOrder` | internal/caddyfile/app.go:94-99 | A server's endpoints are those of its endpoint directives, in order |
| `CaddyfileTheorems.ServerMerges` | internal/caddyfile/app.go:84-124 | The listen address is the last one written; repeated guardrails and runtime blocks act as one each |
| `CaddyfileTheorems.ClientMerges` | internal/caddyfile/app.go:296-330 | Token and forward are the last ones written; repeated tls blocks act as one |
| `CaddyfileTheorems.TlsLastWrite` | internal/caddyfile/app.go:332-358 | TLS scalars are the last ones written; the insecure flag is sticky |
| `CaddyfileTheorems.LimitsLastWrite` | internal/caddyfile/app.go:170-196 | Each limit is the last one written, decimal integers included |
| `CaddyfileTheorems.GuardrailsLastWrite` | internal/caddyfile/app.go:198-248 | Each guardrail is the last one written |
| `CaddyfileTheorems.TuningLastWrite` | internal/caddyfile/app.go:250-277 | Each tuning value is the last one written |
| `Caddyfile.ParseApp` | internal/caddyfile/app.go:13-65 | The nested loops compute the fold of the directives |
| `Caddyfile.ParseBlock` | internal/caddyfile/app.go:84-124 | The loop over a block computes the fold of its directives |
| `Decimal.ParseFormatted` | internal/caddyfile/app.go:399-419 | Decimal integers round-trip exactly within 64 bits and are refused outside |
| `Decimal.ParseIntIff` | internal/caddyfile/app.go:397-419 | A string parses to a number exactly when it is a decimal numeral for it, by the place of each digit, with an optional sign and leading zeros, and the number fits 64 bits |
| `Metrics.ActiveIsBalance` | internal/runtime/metrics.go:87-99 | The active gauge is session starts minus session ends, for any interleaving |
| `Metrics.StartedMinusEndedIsOpen` | internal/runtime/metrics.go:101-111 | Streams started equals StreamStarted calls, and minus streams ended equals the handles not yet ended, despite repeated End |
| `Metrics.HandlesFollowStarts` | internal/runtime/metrics.go:101-150 | Each handle keeps the key it was started with and is done exactly when End was called on it |
| `Metrics.BytesAreExact` | internal/runtime/metrics.go:128-142 | Byte counters are the sums of the positive amounts per key and direction |
| `Metrics.RejectionsAddUp` | internal/runtime/metrics.go:113-118 | Rejections summed over the reason labels are the rejecting calls with that key |
| `Metrics.RejectionsByReason` | internal/runtime/metrics.go:113-118 | Each reason label counts the rejections whose reason has that label |
| `Metrics.SeriesAppearTogether` | internal/runtime/metrics.go:101-111 | No series exists for the empty key, and the stream series of a key appear together |
| `Metrics.SafeReasonIdempotent` | internal/runtime/metrics.go:184-192 | A reason label is never empty, has no hyphen, space or capital, and labels itself |
| `Metrics.SafeReasonExact` | internal/runtime/metrics.go:184-192 | A blank reason is labelled `unknown`; any other is its trimmed text, character by character lowered, with underscores for hyphens and spaces |
| `Metrics.CaddyStreamObserver.End` | internal/runtime/metrics.go:144-151 | Counts the end once and never again |

## Left out

- The Bifrost core (sessions, admission, multiplexing, copying) and Caddy: the core is any sequence of
  calls on the observers, Caddy any sequence of arrivals, reloads and lease calls; the core's own check
  of static clients is a predicate that depends only on the clients.
- TLS: the handshake is any sequence of reads and writes and any outcome; certificates, ALPN and the
  parsing of the ClientHello are not modelled.
- Sockets, `DialAddress`, `ListenCaddy`, contexts, the readiness wait of `Server.Start`, HTTP round
  trips, JSON and module loading, logging and `Fingerprint`.
- `SetPassthroughResolver`: each arrival carries the resolver in force when it is handled.
- `classifyPassthroughStreamReject`: a failure carries its reason as an opaque value.
- Nil receivers, nil configurations and nil loggers.
- `ParseServer`, `ParseClient`, `ParseTransport`, the listener wrapper's own Caddyfile block,
  `SplitAddress`, the passive latency figures and the registration of Prometheus collectors: easy
  members beside those modelled.
- Strings.TrimSpace: ASCII whitespace only, where Go knows Unicode.
- Strings.ToLower: ASCII letters only, where Go knows Unicode.
- StreamLifecycle.Event: the clock's values are not modelled; where the order of `ObservedAt` matters, a
  mark carries its place in lock order instead (`StreamInterleaving.Stamped`). A start and the delta marked
  by the same call share one time in the source and have neighbouring places here.
- Caddyfile.ParseApp: works on a tree of directives rather than on Caddy's token dispenser; directive
  names are an enumeration with one constructor for every other name; the two errors Caddy reports
  alike for a wrong argument and an unknown directive are kept apart.
- CaddyfileTheorems.ServerRoundTrip: takes `time.ParseDuration` as a parameter with a formatter that
  round-trips, because durations are not parsed here.
- CaddyfileTheorems.LimitsLastWrite: durations are whatever the duration parser makes of the last one.
- Listener.ServeAll: closing and proxying are recorded in logs; the sockets themselves are not closed
  here.
- StreamInterleaving.DeliveredEqualsMarked: compares multisets; when the order agrees too is the subject
  of StreamOrder.
- ClientProtocol.Step: the factory and the client's shutdown terminate, and the scheduler is arbitrary;
  that a waiting thread is eventually served is not stated.
- ClientRegistry.Registry.Acquire: the factory is a started client or a failure; what a failed client
  start leaves behind is outside the model.
- Metrics.BytesAreExact: counts in naturals where Prometheus adds floating-point numbers.
