/** The durable alert state of one host and the pure steps of `observe`, `emit`, `deliver` and `redrive`.

    A `Ledger` is the state file together with the history that the file itself does not keep: the
    samples each signal was given and when, every call of `emit`, and the events evicted from the
    bounded history.  Both parts are lost or kept together when a process crashes. */
module AlertLedger {
  import opened HealthEvents

  const OUTBOX_LIMIT: nat := 64
  const HISTORY_LIMIT: nat := 32
  const INVOCATION_LIMIT: nat := 64
  const SIGNAL_LIMIT: nat := 64
  const MAX_ATTEMPTS: nat := 6
  const BASE_BACKOFF: nat := 60
  const MAX_BACKOFF: nat := 3600

  datatype Key = Key(group: string, signal: Signal)

  datatype Status = Pending | Exhausted | Accepted | Skipped | Duplicate

  datatype Fault = Timeout | Network | Redirect | Http4xx | Http5xx | InvalidResponse

  /** What one request may answer: a terminal status naming a run, or a fault. */
  datatype Reply = Terminal(status: Status, run: nat) | Faulted(fault: Fault)

  datatype TransportError = Clean | OutboxCapacity | CapabilityUnavailable | AttemptFailed(fault: Fault)
                          | AdmissionUnconfirmed | AdmissionSkipped

  datatype Entry = Entry(
    event: Event,
    digest: Option<Event>,        // collision-free digest of the payload bytes
    status: Status,
    attempts: nat,
    nextAttemptAt: int,
    lastError: Option<Fault>,
    runId: Option<nat>)

  datatype SignalRecord = SignalRecord(
    failing: bool,
    episodeId: Option<nat>,
    firstFailureAt: Option<int>,
    lastFailureAt: Option<int>,
    consecutiveFailures: nat,
    totalFailures: nat,
    lastSuccessAt: Option<int>,
    escalations: nat,
    lastErrors: string)

  datatype Transport = Transport(degraded: bool, consecutiveFailures: nat, lastError: TransportError,
                                 lastErrorAt: Option<int>)

  datatype Counters = Counters(dropped: nat, skipped: nat, unconfirmed: nat, exhausted: nat)

  datatype State = State(
    sequence: nat,
    signals: map<Key, SignalRecord>,
    outbox: seq<Entry>,
    history: seq<Entry>,
    invocations: seq<string>,
    transport: Transport,
    counters: Counters)

  datatype Call = Call(key: Key, kind: Kind, episodeId: nat, event: Option<Event>)

  /** When a sample was taken and what it complained of. */
  datatype Moment = Moment(at: int, errors: string)

  datatype Ledger = Ledger(st: State, samples: map<Key, seq<bool>>, moments: map<Key, seq<Moment>>, calls: seq<Call>,
                           evicted: seq<Entry>)

  const FRESH_RECORD := SignalRecord(false, None, None, None, 0, 0, None, 0, "")

  const EMPTY_STATE := State(0, map[], [], [], [], Transport(false, 0, Clean, None), Counters(0, 0, 0, 0))

  const EMPTY_LEDGER := Ledger(EMPTY_STATE, map[], map[], [], [])

  /** Consecutive failures at which a failing signal escalates. */
  function Thresholds(signal: Signal): (t: seq<nat>)
  {
    match signal
    case Tls => [12, 72, 288]
    case Renewal => [2, 4, 8]
  }

  // ---- emit ------------------------------------------------------------------------------------

  function MakeEvent(st: State, now: int, source: string, key: Key, kind: Kind, rec: SignalRecord, evidence: string,
                     id: nat): Event
    requires rec.episodeId.Some?
  {
    Event(id, source, key.group, key.signal, kind, rec.episodeId.value, st.sequence + 1, now, rec.firstFailureAt,
          rec.consecutiveFailures, rec.totalFailures, rec.lastSuccessAt, evidence, st.counters.dropped)
  }

  function Queued(event: Event, now: int): Entry {
    Entry(event, Some(event), Pending, 0, now, None, None)
  }

  /** Number and queue an event, or count it as dropped when the outbox is full. */
  function Emit(l: Ledger, now: int, source: string, key: Key, kind: Kind, rec: SignalRecord, evidence: string,
                id: nat): Ledger
    requires rec.episodeId.Some?
  {
    var st := l.st;
    if |st.outbox| >= OUTBOX_LIMIT then
      l.(st := st.(counters := st.counters.(dropped := st.counters.dropped + 1),
                   transport := st.transport.(degraded := true, lastError := OutboxCapacity, lastErrorAt := Some(now))),
         calls := l.calls + [Call(key, kind, rec.episodeId.value, None)])
    else
      var event := MakeEvent(st, now, source, key, kind, rec, evidence, id);
      l.(st := st.(sequence := st.sequence + 1, outbox := st.outbox + [Queued(event, now)]),
         calls := l.calls + [Call(key, kind, rec.episodeId.value, Some(event))])
  }

  // ---- observe ---------------------------------------------------------------------------------

  function RecordOf(st: State, key: Key): SignalRecord {
    if key in st.signals then st.signals[key] else FRESH_RECORD
  }

  /** The record at the moment `emit` reads it. */
  function Sampled(rec: SignalRecord, signal: Signal, ok: bool, now: int, errors: string, episode: nat): SignalRecord {
    if ok then
      rec.(lastSuccessAt := Some(now))
    else
      var counted := rec.(totalFailures := rec.totalFailures + 1, lastFailureAt := Some(now), lastErrors := errors);
      if !rec.failing then
        counted.(failing := true, episodeId := Some(episode), firstFailureAt := Some(now), consecutiveFailures := 1,
                 escalations := 0)
      else
        var run := rec.consecutiveFailures + 1;
        if Escalates(rec, signal) then counted.(consecutiveFailures := run, escalations := rec.escalations + 1)
        else counted.(consecutiveFailures := run)
  }

  predicate Escalates(rec: SignalRecord, signal: Signal) {
    && rec.escalations < |Thresholds(signal)|
    && rec.consecutiveFailures + 1 >= Thresholds(signal)[rec.escalations]
  }

  /** The kind of event this sample announces, decided on the record before the sample. */
  function Transition(rec: SignalRecord, signal: Signal, ok: bool): Option<Kind> {
    if ok then
      if rec.failing then Some(Recovery) else None
    else if !rec.failing then Some(Failure)
    else if Escalates(rec, signal) then Some(Escalation)
    else None
  }

  /** The record left behind once the event, if any, is emitted. */
  function Settled(rec: SignalRecord, ok: bool): SignalRecord {
    if ok && rec.failing then rec.(failing := false, episodeId := None, consecutiveFailures := 0, escalations := 0)
    else rec
  }

  function SamplesOf(l: Ledger, key: Key): seq<bool> {
    if key in l.samples then l.samples[key] else []
  }

  function MomentsOf(l: Ledger, key: Key): seq<Moment> {
    if key in l.moments then l.moments[key] else []
  }

  predicate ObserveFits(st: State, key: Key) {
    key in st.signals || |st.signals| < SIGNAL_LIMIT
  }

  /** A failing record names its episode. */
  predicate RecordWf(rec: SignalRecord) {
    rec.failing ==> rec.episodeId.Some?
  }

  predicate SignalsWf(st: State) {
    forall k | k in st.signals :: RecordWf(st.signals[k])
  }

  /** The sample is entered, with the record it leaves. */
  function WithSample(l: Ledger, key: Key, rec: SignalRecord, ok: bool, now: int, errors: string): Ledger {
    l.(st := l.st.(signals := l.st.signals[key := rec]),
       samples := l.samples[key := SamplesOf(l, key) + [ok]],
       moments := l.moments[key := MomentsOf(l, key) + [Moment(now, if ok then "" else errors)]])
  }

  function Observe(l: Ledger, source: string, key: Key, ok: bool, now: int, errors: string, episode: nat,
                   id: nat): Ledger
    requires SignalsWf(l.st)
  {
    var rec := RecordOf(l.st, key);
    var sampled := Sampled(rec, key.signal, ok, now, errors, episode);
    var stored := WithSample(l, key, Settled(sampled, ok), ok, now, errors);
    match Transition(rec, key.signal, ok)
    case None => stored
    case Some(kind) => Emit(stored, now, source, key, kind, sampled, sampled.lastErrors, id)
  }

  /** The bounded window of renewal invocations already recorded. */
  function WithInvocation(l: Ledger, invocation: string): Ledger {
    var window := l.st.invocations + [invocation];
    l.(st := l.st.(invocations := if |window| > INVOCATION_LIMIT then window[|window| - INVOCATION_LIMIT..]
                   else window))
  }

  // ---- deliver ---------------------------------------------------------------------------------

  /** Obligations that an unrelated successful delivery cannot settle. */
  predicate Outstanding(st: State) {
    || st.counters.skipped > 0
    || st.counters.dropped > 0
    || st.counters.unconfirmed > 0
    || exists i | 0 <= i < |st.outbox| :: st.outbox[i].status == Exhausted || st.outbox[i].lastError.Some?
  }

  /** The capability file could not be read: nothing is attempted. */
  function Unroutable(l: Ledger, now: int): Ledger {
    l.(st := l.st.(transport := l.st.transport.(degraded := true, lastError := CapabilityUnavailable,
                                                lastErrorAt := Some(now))))
  }

  function Counted(l: Ledger, i: nat): Ledger
    requires i < |l.st.outbox|
  {
    var entry := l.st.outbox[i];
    l.(st := l.st.(outbox := l.st.outbox[i := entry.(attempts := entry.attempts + 1, digest := Some(entry.event))]))
  }

  function ExhaustedAt(l: Ledger, i: nat): Ledger
    requires i < |l.st.outbox|
  {
    l.(st := l.st.(outbox := l.st.outbox[i := l.st.outbox[i].(status := Exhausted)],
                   transport := l.st.transport.(degraded := true),
                   counters := l.st.counters.(exhausted := l.st.counters.exhausted + 1)))
  }

  function Remove<T>(s: seq<T>, i: nat): seq<T>
    requires i < |s|
  {
    s[..i] + s[i + 1..]
  }

  function FirstAccepted(h: seq<Entry>): (i: Option<nat>)
    ensures i.Some? ==> i.value < |h| && h[i.value].status == Accepted
    ensures i.None? ==> forall k | 0 <= k < |h| :: h[k].status != Accepted
  {
    if h == [] then None
    else if h[0].status == Accepted then Some(0)
    else match FirstAccepted(h[1..]) case None => None case Some(k) => Some(k + 1)
  }

  /** The history cut to its limit by discarding the oldest accepted entries, and what was discarded. */
  function Trimmed(h: seq<Entry>): (r: (seq<Entry>, seq<Entry>))
    decreases |h|
  {
    if |h| <= HISTORY_LIMIT then (h, [])
    else match FirstAccepted(h)
      case None => (h, [])
      case Some(k) => var rest := Trimmed(Remove(h, k)); (rest.0, [h[k]] + rest.1)
  }

  function Pow2(n: nat): (p: nat) {
    if n == 0 then 1 else 2 * Pow2(n - 1)
  }

  function Backoff(attempts: nat): int {
    if attempts == 0 then 0
    else var delay := BASE_BACKOFF * Pow2(attempts - 1); if delay < MAX_BACKOFF then delay else MAX_BACKOFF
  }

  predicate IsTerminal(reply: Reply) {
    reply.Terminal? && (reply.status == Accepted || reply.status == Skipped || reply.status == Duplicate)
  }

  function Resolved(entry: Entry, reply: Reply): Entry
    requires reply.Terminal?
  {
    entry.(status := reply.status, runId := Some(reply.run), lastError := None)
  }

  function TransportAfter(t: Transport, outstanding: bool, reply: Reply): Transport
    requires reply.Terminal?
  {
    t.(degraded := outstanding || reply.status != Accepted,
       consecutiveFailures := 0,
       lastError := if reply.status == Duplicate then AdmissionUnconfirmed
                    else if reply.status == Skipped then AdmissionSkipped else Clean)
  }

  function CountersAfter(c: Counters, status: Status): Counters {
    if status == Duplicate then c.(unconfirmed := c.unconfirmed + 1)
    else if status == Skipped then c.(skipped := c.skipped + 1)
    else c
  }

  /** A terminal reply resolves the entry and retires it to the history when the history has room. */
  function Retired(l: Ledger, i: nat, reply: Reply): Ledger
    requires i < |l.st.outbox| && reply.Terminal?
  {
    var entry := Resolved(l.st.outbox[i], reply);
    var trimmed := Trimmed(l.st.history + [entry]);
    if |trimmed.0| <= HISTORY_LIMIT then
      l.(st := l.st.(outbox := Remove(l.st.outbox, i), history := trimmed.0), evicted := l.evicted + trimmed.1)
    else
      l.(st := l.st.(outbox := l.st.outbox[i := entry]))
  }

  function Settle(l: Ledger, status: Status, reply: Reply): Ledger
    requires reply.Terminal?
  {
    var transport := TransportAfter(l.st.transport, Outstanding(l.st), reply);
    var st := l.st.(transport := transport, counters := CountersAfter(l.st.counters, status));
    l.(st := st.(transport := transport.(degraded := transport.degraded || Outstanding(st))))
  }

  function Failed(l: Ledger, i: nat, fault: Fault, now: int): Ledger
    requires i < |l.st.outbox|
  {
    var entry := l.st.outbox[i].(lastError := Some(fault));
    var t := l.st.transport.(consecutiveFailures := l.st.transport.consecutiveFailures + 1,
                             lastError := AttemptFailed(fault), lastErrorAt := Some(now), degraded := true);
    if entry.attempts >= MAX_ATTEMPTS then
      l.(st := l.st.(outbox := l.st.outbox[i := entry.(status := Exhausted)], transport := t,
                     counters := l.st.counters.(exhausted := l.st.counters.exhausted + 1)))
    else
      l.(st := l.st.(outbox := l.st.outbox[i := entry.(nextAttemptAt := now + Backoff(entry.attempts))],
                     transport := t))
  }

  /** What the reply to one counted attempt does to the state. */
  function Answered(l: Ledger, i: nat, reply: Reply, now: int): Ledger
    requires i < |l.st.outbox|
  {
    if IsTerminal(reply) then Settle(Retired(l, i, reply), reply.status, reply)
    else if reply.Faulted? then Failed(l, i, reply.fault, now)
    else Failed(l, i, InvalidResponse, now)
  }

  // ---- redrive ---------------------------------------------------------------------------------

  function Rearmed(entry: Entry, now: int): Entry {
    if entry.status == Exhausted then entry.(status := Pending, attempts := 0, nextAttemptAt := now) else entry
  }

  function RearmedAll(outbox: seq<Entry>, now: int): (r: seq<Entry>)
    ensures |r| == |outbox|
    ensures forall i | 0 <= i < |r| :: r[i] == Rearmed(outbox[i], now)
  {
    seq(|outbox|, i requires 0 <= i < |outbox| => Rearmed(outbox[i], now))
  }

  function Redrive(l: Ledger, now: int): Ledger {
    l.(st := l.st.(outbox := RearmedAll(l.st.outbox, now)))
  }

  // ---- valid_state -----------------------------------------------------------------------------

  predicate ValidEntry(e: Entry) {
    e.digest == None || e.digest == Some(e.event)
  }

  /** The check `save` makes before it replaces the state file. */
  predicate ValidState(st: State) {
    && |st.signals| <= SIGNAL_LIMIT
    && |st.outbox| <= OUTBOX_LIMIT
    && |st.history| <= HISTORY_LIMIT
    && |st.invocations| <= INVOCATION_LIMIT
    && SignalsWf(st)
    && (forall e | e in st.outbox :: ValidEntry(e))
    && (forall e | e in st.history :: ValidEntry(e))
  }
}
