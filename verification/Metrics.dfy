/** The Caddy metrics of one registry: per-endpoint gauges and counters shared by every observer
    registered there, and the handles through which streams report their bytes and their end. */
module Metrics {
  import opened Bifrost
  import opened Strings
  import opened Sums

  /** The series of a registry, by endpoint key, and by reason or direction where there is one. */
  datatype Series = Series(
    active: map<string, int>, started: map<string, nat>, ended: map<string, nat>,
    rejected: map<string, map<string, nat>>, bytes: map<string, map<Direction, nat>>)

  /** What StreamStarted returned: a no-op observer, or a live one and whether its once has run. */
  datatype Handle = Noop | Live(key: string, done: bool)

  datatype HandleCall = AddBytes(direction: Direction, n: int) | End

  /** Calls on any observer of the registry; handles are numbered in the order they are returned. */
  datatype Call =
    | SessionStarted(key: string)
    | SessionEnded(key: string)
    | StreamStarted(key: string)
    | StreamRejected(key: string, reason: string)
    | OnHandle(index: nat, call: HandleCall)

  const NO_SERIES := Series(map[], map[], map[], map[], map[])

  function Get<K>(m: map<K, nat>, k: K): nat {
    if k in m then m[k] else 0
  }

  function Level(m: map<string, int>, k: string): int {
    if k in m then m[k] else 0
  }

  function Row<K>(m: map<string, map<K, nat>>, key: string): map<K, nat> {
    if key in m then m[key] else map[]
  }

  /** WithLabelValues creates a series at zero the first time it is asked for. */
  function Plus<K>(m: map<K, nat>, k: K, n: nat): map<K, nat> {
    m[k := Get(m, k) + n]
  }

  // Reasons.

  function Replace(s: string, a: char, b: char): string {
    seq(|s|, i requires 0 <= i < |s| => if s[i] == a then b else s[i])
  }

  function SafeReason(reason: string): string {
    var r := Underscored(TrimSpace(ToLower(reason)));
    if r == "" then "unknown" else r
  }

  predicate IsLabelChar(c: char) {
    c != '-' && c != ' ' && LowerChar(c) == c
  }

  predicate IsLower(s: string) {
    forall i :: 0 <= i < |s| ==> LowerChar(s[i]) == s[i]
  }

  lemma LoweredIsLower(s: string)
    ensures IsLower(ToLower(s))
  {
  }

  lemma TrimmedIsLower(s: string)
    requires IsLower(s)
    ensures IsLower(TrimSpace(s))
  {
    TrimLeftSpec(s);
    TrimRightSpec(TrimLeft(s));
  }

  function Underscored(s: string): string {
    Replace(Replace(s, '-', '_'), ' ', '_')
  }

  lemma UnderscoredAt(s: string, i: nat)
    requires i < |s| && LowerChar(s[i]) == s[i]
    ensures |Underscored(s)| == |s| && IsLabelChar(Underscored(s)[i])
    ensures !IsSpace(s[i]) ==> !IsSpace(Underscored(s)[i])
  {
  }

  lemma SafeReasonChars(reason: string)
    ensures SafeReason(reason) != "" && IsTrimmed(SafeReason(reason))
    ensures forall i :: 0 <= i < |SafeReason(reason)| ==> IsLabelChar(SafeReason(reason)[i])
  {
    var s := TrimSpace(ToLower(reason));
    LoweredIsLower(reason);
    TrimmedIsLower(ToLower(reason));
    forall i | 0 <= i < |s|
      ensures IsLabelChar(Underscored(s)[i]) && (!IsSpace(s[i]) ==> !IsSpace(Underscored(s)[i]))
    {
      UnderscoredAt(s, i);
    }
  }

  /** The character of a label that stands for c. */
  predicate StandsFor(l: char, c: char) {
    if c == '-' || c == ' ' then l == '_' else SameLetter(l, c) && !('A' <= l <= 'Z')
  }

  /** A blank reason is unknown; any other is spelled out, character by character. */
  lemma SafeReasonExact(reason: string)
    ensures IsBlank(reason) ==> SafeReason(reason) == "unknown"
    ensures !IsBlank(reason) ==>
              && |SafeReason(reason)| == |TrimSpace(reason)|
              && forall i :: 0 <= i < |TrimSpace(reason)| ==> StandsFor(SafeReason(reason)[i], TrimSpace(reason)[i])
  {
    BlankIff(reason);
    TrimToLower(reason);
    var t := TrimSpace(reason);
    forall i | 0 <= i < |t|
      ensures StandsFor(Underscored(ToLower(t))[i], t[i])
    {
      LabelChar(t, i);
    }
  }

  lemma LabelChar(t: string, i: nat)
    requires i < |t|
    ensures |Underscored(ToLower(t))| == |t| && StandsFor(Underscored(ToLower(t))[i], t[i])
  {
  }

  /** A label is never empty, has no hyphen, space or upper-case letter, and labels itself. */
  lemma SafeReasonIdempotent(reason: string)
    ensures SafeReason(reason) != ""
    ensures forall i :: 0 <= i < |SafeReason(reason)| ==> IsLabelChar(SafeReason(reason)[i])
    ensures SafeReason(SafeReason(reason)) == SafeReason(reason)
  {
    SafeReasonChars(reason);
    var r := SafeReason(reason);
    assert ToLower(r) == r;
    assert Replace(r, '-', '_') == r;
    assert Replace(r, ' ', '_') == r;
  }

  // What each call does.

  /** The handle StreamStarted returns. */
  function HandleFor(key: string): Handle {
    if key == "" then Noop else Live(key, false)
  }

  function AfterSessionStarted(s: Series, key: string): Series {
    if key == "" then s else s.(active := s.active[key := Level(s.active, key) + 1])
  }

  function AfterSessionEnded(s: Series, key: string): Series {
    if key == "" then s else s.(active := s.active[key := Level(s.active, key) - 1])
  }

  function AfterStreamStarted(s: Series, key: string): Series {
    if key == "" then s
    else
      s.(started := Plus(s.started, key, 1), ended := Plus(s.ended, key, 0),
         bytes := s.bytes[key := Plus(Plus(Row(s.bytes, key), IngressToEndpoint, 0), EndpointToIngress, 0)])
  }

  function AfterStreamRejected(s: Series, key: string, reason: string): Series {
    if key == "" then s else s.(rejected := s.rejected[key := Plus(Row(s.rejected, key), SafeReason(reason), 1)])
  }

  function AfterHandleCall(s: Series, h: Handle, call: HandleCall): (Series, Handle) {
    match h
    case Noop => (s, h)
    case Live(key, done) =>
      match call
      case AddBytes(d, n) =>
        if n <= 0 || d == OtherDirection then (s, h)
        else (s.(bytes := s.bytes[key := Plus(Row(s.bytes, key), d, n)]), h)
      case End =>
        if done then (s, h) else (s.(ended := Plus(s.ended, key, 1)), Live(key, true))
  }

  class Collectors {
    var active: map<string, int>
    var started: map<string, nat>
    var ended: map<string, nat>
    var rejected: map<string, map<string, nat>>
    var bytes: map<string, map<Direction, nat>>

    constructor ()
      ensures View() == NO_SERIES
    {
      active, started, ended, rejected, bytes := map[], map[], map[], map[], map[];
    }

    ghost function View(): Series
      reads this
    {
      Series(active, started, ended, rejected, bytes)
    }
  }

  class CaddyObserver {
    const collectors: Collectors

    constructor (collectors: Collectors)
      ensures this.collectors == collectors
    {
      this.collectors := collectors;
    }

    method SessionStarted(key: string)
      modifies collectors
      ensures collectors.View() == AfterSessionStarted(old(collectors.View()), key)
    {
      if key == "" {
        return;
      }
      collectors.active := collectors.active[key := Level(collectors.active, key) + 1];
    }

    method SessionEnded(key: string)
      modifies collectors
      ensures collectors.View() == AfterSessionEnded(old(collectors.View()), key)
    {
      if key == "" {
        return;
      }
      collectors.active := collectors.active[key := Level(collectors.active, key) - 1];
    }

    /** Null is the no-op stream observer. */
    method StreamStarted(key: string) returns (handle: CaddyStreamObserver?)
      modifies collectors
      ensures collectors.View() == AfterStreamStarted(old(collectors.View()), key)
      ensures HandleOf(handle) == HandleFor(key)
      ensures handle != null ==> fresh(handle) && handle.collectors == collectors
    {
      if key == "" {
        return null;
      }
      collectors.started := Plus(collectors.started, key, 1);
      collectors.ended := Plus(collectors.ended, key, 0);
      var row := Plus(Plus(Row(collectors.bytes, key), IngressToEndpoint, 0), EndpointToIngress, 0);
      collectors.bytes := collectors.bytes[key := row];
      handle := new CaddyStreamObserver(collectors, key);
    }

    method StreamRejected(key: string, reason: string)
      modifies collectors
      ensures collectors.View() == AfterStreamRejected(old(collectors.View()), key, reason)
    {
      if key == "" {
        return;
      }
      collectors.rejected := collectors.rejected[key := Plus(Row(collectors.rejected, key), SafeReason(reason), 1)];
    }
  }

  ghost function HandleOf(handle: CaddyStreamObserver?): Handle
    reads handle
  {
    if handle == null then Noop else Live(handle.key, handle.done)
  }

  class CaddyStreamObserver {
    const collectors: Collectors
    const key: string
    /** Whether once has run. */
    var done: bool

    constructor (collectors: Collectors, key: string)
      ensures this.collectors == collectors && this.key == key && !done
    {
      this.collectors, this.key, done := collectors, key, false;
    }

    method AddBytes(direction: Direction, n: int)
      modifies collectors
      ensures (collectors.View(), HandleOf(this)) ==
              AfterHandleCall(old(collectors.View()), old(HandleOf(this)), HandleCall.AddBytes(direction, n))
    {
      if n <= 0 || direction == OtherDirection {
        return;
      }
      collectors.bytes := collectors.bytes[key := Plus(Row(collectors.bytes, key), direction, n)];
    }

    method End()
      modifies this, collectors
      ensures (collectors.View(), HandleOf(this)) ==
              AfterHandleCall(old(collectors.View()), old(HandleOf(this)), HandleCall.End)
    {
      if done {
        return;
      }
      collectors.ended := Plus(collectors.ended, key, 1);
      done := true;
    }
  }

  // Any interleaving of calls.

  datatype State = State(series: Series, handles: seq<Handle>)

  /** A handle that was not returned yet is a nil observer, whose methods do nothing. */
  function Apply(s: State, call: Call): State {
    match call
    case SessionStarted(key) => s.(series := AfterSessionStarted(s.series, key))
    case SessionEnded(key) => s.(series := AfterSessionEnded(s.series, key))
    case StreamStarted(key) => State(AfterStreamStarted(s.series, key), s.handles + [HandleFor(key)])
    case StreamRejected(key, reason) => s.(series := AfterStreamRejected(s.series, key, reason))
    case OnHandle(i, c) =>
      if i >= |s.handles| then s
      else
        var (series, h) := AfterHandleCall(s.series, s.handles[i], c);
        State(series, s.handles[i := h])
  }

  function Run(calls: seq<Call>): State {
    if calls == [] then State(NO_SERIES, [])
    else Apply(Run(calls[..|calls| - 1]), calls[|calls| - 1])
  }

  /** The keys streams were started with, in order. */
  function Opened(calls: seq<Call>): seq<string> {
    if calls == [] then []
    else
      var last := calls[|calls| - 1];
      Opened(calls[..|calls| - 1]) + (if last.StreamStarted? then [last.key] else [])
  }

  lemma CountOfLast(calls: seq<Call>, c: Call)
    requires calls != []
    ensures var before, last := calls[..|calls| - 1], calls[|calls| - 1];
            multiset(calls)[c] == multiset(before)[c] + if last == c then 1 else 0
  {
    assert calls == calls[..|calls| - 1] + [calls[|calls| - 1]];
  }

  lemma ActiveStep(s: State, call: Call, key: string)
    requires key != ""
    ensures Level(Apply(s, call).series.active, key) ==
            Level(s.series.active, key)
              + (if call == SessionStarted(key) then 1 else 0) - (if call == SessionEnded(key) then 1 else 0)
  {
  }

  /** The active gauge is starts minus ends, however they interleave. */
  lemma {:induction false} ActiveIsBalance(calls: seq<Call>, key: string)
    requires key != ""
    ensures Level(Run(calls).series.active, key) + multiset(calls)[SessionEnded(key)] ==
            multiset(calls)[SessionStarted(key)]
  {
    if calls != [] {
      var before, last := calls[..|calls| - 1], calls[|calls| - 1];
      ActiveIsBalance(before, key);
      ActiveStep(Run(before), last, key);
      CountOfLast(calls, SessionStarted(key));
      CountOfLast(calls, SessionEnded(key));
    }
  }

  /** What the stream counters and handles of a key amount to. */
  predicate StreamsBalance(s: State, key: string, starts: nat) {
    && Get(s.series.started, key) == starts
    && Get(s.series.ended, key) == multiset(s.handles)[Live(key, true)]
    && Get(s.series.started, key) == Get(s.series.ended, key) + multiset(s.handles)[Live(key, false)]
  }

  lemma StreamsStep(s: State, call: Call, key: string, starts: nat)
    requires key != "" && StreamsBalance(s, key, starts)
    ensures StreamsBalance(Apply(s, call), key, starts + if call == StreamStarted(key) then 1 else 0)
  {
    if call.StreamStarted? {
      StartKeepsEnded(s.series, call.key, key);
    } else if call.OnHandle? && call.index < |s.handles| {
      var h := s.handles[call.index];
      HandleCallStep(s.series, h, call.call, key);
      var after := AfterHandleCall(s.series, h, call.call).1;
      BagOfUpdate(s.handles, call.index, after, Live(key, true));
      BagOfUpdate(s.handles, call.index, after, Live(key, false));
    } else {
      OtherCallsKeepStreams(s, call);
    }
  }

  lemma OtherCallsKeepStreams(s: State, call: Call)
    requires !call.StreamStarted? && !(call.OnHandle? && call.index < |s.handles|)
    ensures var r := Apply(s, call);
            r.series.started == s.series.started && r.series.ended == s.series.ended && r.handles == s.handles
  {
  }

  lemma HandleCallStep(s: Series, h: Handle, call: HandleCall, key: string)
    ensures var (r, after) := AfterHandleCall(s, h, call);
            && r.started == s.started
            && after.Noop? == h.Noop? && (h.Live? ==> after.key == h.key && (h.done ==> after.done))
            && Get(r.ended, key) == Get(s.ended, key)
                                    + if h == Live(key, false) && after == Live(key, true) then 1 else 0
  {
  }

  lemma BagOfUpdate<T>(s: seq<T>, i: nat, x: T, y: T)
    requires i < |s|
    ensures multiset(s[i := x])[y] + (if s[i] == y then 1 else 0) == multiset(s)[y] + if x == y then 1 else 0
  {
    assert s == s[..i] + [s[i]] + s[i + 1..];
    assert s[i := x] == s[..i] + [x] + s[i + 1..];
  }

  lemma StartKeepsEnded(s: Series, k: string, key: string)
    ensures var r := AfterStreamStarted(s, k);
            && Get(r.ended, key) == Get(s.ended, key)
            && Get(r.started, key) == Get(s.started, key) + if k == key && key != "" then 1 else 0
  {
  }

  /** Streams started is the number of StreamStarted calls; those not ended are exactly the live
      handles not yet done, so a second End changes nothing. */
  lemma {:induction false} StartedMinusEndedIsOpen(calls: seq<Call>, key: string)
    requires key != ""
    ensures StreamsBalance(Run(calls), key, multiset(calls)[StreamStarted(key)])
  {
    if calls != [] {
      var before, last := calls[..|calls| - 1], calls[|calls| - 1];
      StartedMinusEndedIsOpen(before, key);
      StreamsStep(Run(before), last, key, multiset(before)[StreamStarted(key)]);
      CountOfLast(calls, StreamStarted(key));
    }
  }

  predicate WasEnded(calls: seq<Call>, index: nat) {
    exists j | 0 <= j < |calls| :: calls[j] == OnHandle(index, End) && index < |Opened(calls[..j])|
  }

  /** The i-th handle carries the key of the i-th StreamStarted, and is done exactly when End was
      called on it. */
  lemma {:induction false} HandlesFollowStarts(calls: seq<Call>)
    ensures var handles, keys := Run(calls).handles, Opened(calls);
            && |handles| == |keys|
            && forall i :: 0 <= i < |keys| ==>
                 handles[i] == if keys[i] == "" then Noop else Live(keys[i], WasEnded(calls, i))
  {
    if calls != [] {
      var before, last := calls[..|calls| - 1], calls[|calls| - 1];
      HandlesFollowStarts(before);
      var keys := Opened(before);
      forall i | 0 <= i < |Opened(calls)|
        ensures WasEnded(calls, i) <==> WasEnded(before, i) || (i < |keys| && last == OnHandle(i, End))
      {
        WasEndedStep(calls, i);
      }
      if last.StreamStarted? {
        NotEndedBeforeOpened(before, |keys|);
      }
    }
  }

  lemma WasEndedStep(calls: seq<Call>, index: nat)
    requires calls != []
    ensures var before, last := calls[..|calls| - 1], calls[|calls| - 1];
            WasEnded(calls, index) <==>
              WasEnded(before, index) || (index < |Opened(before)| && last == OnHandle(index, End))
  {
    var before := calls[..|calls| - 1];
    assert forall j :: 0 <= j < |before| ==> before[..j] == calls[..j];
  }

  lemma {:induction false} NotEndedBeforeOpened(calls: seq<Call>, index: nat)
    requires index >= |Opened(calls)|
    ensures !WasEnded(calls, index)
  {
    if calls != [] {
      WasEndedStep(calls, index);
      NotEndedBeforeOpened(calls[..|calls| - 1], index);
    }
  }

  /** The positive amounts added in this direction on handles of this key. */
  function BytesAdded(calls: seq<Call>, key: string, d: Direction): nat {
    if calls == [] then 0
    else
      var before, last := calls[..|calls| - 1], calls[|calls| - 1];
      var keys := Opened(before);
      BytesAdded(before, key, d)
      + if last.OnHandle? && last.index < |keys| && keys[last.index] == key
           && last.call.AddBytes? && last.call.direction == d && last.call.n > 0
        then last.call.n else 0
  }

  lemma BytesStep(s: State, call: Call, key: string, d: Direction)
    requires key != "" && d != OtherDirection
    ensures Get(Row(Apply(s, call).series.bytes, key), d) == Get(Row(s.series.bytes, key), d)
            + if call.OnHandle? && call.index < |s.handles|
                 && s.handles[call.index].Live? && s.handles[call.index].key == key
                 && call.call.AddBytes? && call.call.direction == d && call.call.n > 0
              then call.call.n else 0
  {
    if call.StreamStarted? {
      StartKeepsBytes(s.series, call.key, key, d);
    } else if call.OnHandle? && call.index < |s.handles| {
      HandleCallBytes(s.series, s.handles[call.index], call.call, key, d);
    }
  }

  lemma StartKeepsBytes(s: Series, k: string, key: string, d: Direction)
    ensures Get(Row(AfterStreamStarted(s, k).bytes, key), d) == Get(Row(s.bytes, key), d)
  {
  }

  lemma HandleCallBytes(s: Series, h: Handle, call: HandleCall, key: string, d: Direction)
    requires d != OtherDirection
    ensures Get(Row(AfterHandleCall(s, h, call).0.bytes, key), d) == Get(Row(s.bytes, key), d)
            + if h.Live? && h.key == key && call.AddBytes? && call.direction == d && call.n > 0 then call.n else 0
  {
  }

  /** Byte counters are exact, also for bytes added after the end of the stream. */
  lemma {:induction false} BytesAreExact(calls: seq<Call>, key: string, d: Direction)
    requires key != "" && d != OtherDirection
    ensures Get(Row(Run(calls).series.bytes, key), d) == BytesAdded(calls, key, d)
  {
    if calls != [] {
      var before, last := calls[..|calls| - 1], calls[|calls| - 1];
      BytesAreExact(before, key, d);
      HandlesFollowStarts(before);
      BytesStep(Run(before), last, key, d);
    }
  }

  /** How often a stream of this key was rejected, for reasons with this label. */
  function Rejections(calls: seq<Call>, key: string, tag: string): nat {
    if calls == [] then 0
    else
      var before, last := calls[..|calls| - 1], calls[|calls| - 1];
      Rejections(before, key, tag)
      + if last.StreamRejected? && last.key == key && SafeReason(last.reason) == tag then 1 else 0
  }

  function AllRejections(calls: seq<Call>, key: string): nat {
    if calls == [] then 0
    else
      var before, last := calls[..|calls| - 1], calls[|calls| - 1];
      AllRejections(before, key) + if last.StreamRejected? && last.key == key then 1 else 0
  }

  lemma {:induction false} RejectionsByReason(calls: seq<Call>, key: string, tag: string)
    requires key != ""
    ensures Get(Row(Run(calls).series.rejected, key), tag) == Rejections(calls, key, tag)
  {
    if calls != [] {
      RejectionsByReason(calls[..|calls| - 1], key, tag);
      RejectedStep(Run(calls[..|calls| - 1]), calls[|calls| - 1], key);
    }
  }

  lemma PlusAddsToSum<K>(m: map<K, nat>, k: K, n: nat)
    ensures SumOf(Plus(m, k, n)) == SumOf(m) + n
  {
    SumSet(m, k, Get(m, k) + n);
    if k in m {
      SumRemove(m, k);
    } else {
      assert m - {k} == m;
    }
  }

  lemma RejectedStep(s: State, call: Call, key: string)
    requires key != ""
    ensures Row(Apply(s, call).series.rejected, key) ==
            if call.StreamRejected? && call.key == key
              then Plus(Row(s.series.rejected, key), SafeReason(call.reason), 1)
            else Row(s.series.rejected, key)
  {
  }

  /** Rejections summed over the reason labels are the rejecting calls. */
  lemma {:induction false} RejectionsAddUp(calls: seq<Call>, key: string)
    requires key != ""
    ensures SumOf(Row(Run(calls).series.rejected, key)) == AllRejections(calls, key)
  {
    if calls != [] {
      var before, last := calls[..|calls| - 1], calls[|calls| - 1];
      RejectionsAddUp(before, key);
      var s := Run(before);
      RejectedStep(s, last, key);
      if last.StreamRejected? {
        PlusAddsToSum(Row(s.series.rejected, key), SafeReason(last.reason), 1);
      }
    }
  }

  predicate SeriesOk(s: Series) {
    && "" !in s.active && "" !in s.started && "" !in s.rejected
    && s.started.Keys == s.ended.Keys == s.bytes.Keys
  }

  predicate HandleOk(s: Series, h: Handle) {
    h.Live? ==> h.key in s.started
  }

  /** No call creates a series for the empty key, and the stream series of a key appear together. */
  lemma {:induction false} SeriesAppearTogether(calls: seq<Call>)
    ensures var s := Run(calls);
            && SeriesOk(s.series)
            && forall i :: 0 <= i < |s.handles| ==> HandleOk(s.series, s.handles[i])
  {
    if calls != [] {
      var before, last := calls[..|calls| - 1], calls[|calls| - 1];
      SeriesAppearTogether(before);
      var s := Run(before);
      if last.OnHandle? && last.index < |s.handles| {
        HandleCallKeepsSeries(s.series, s.handles[last.index], last.call);
      }
    }
  }

  lemma HandleCallKeepsSeries(s: Series, h: Handle, call: HandleCall)
    requires SeriesOk(s) && HandleOk(s, h)
    ensures var (r, h') := AfterHandleCall(s, h, call);
            SeriesOk(r) && HandleOk(r, h') && r.started == s.started
  {
  }
}
