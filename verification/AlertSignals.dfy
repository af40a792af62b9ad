/** `observe` against a declarative reading of each signal's sample stream. */
module AlertSignals {
  import opened HealthEvents
  import opened AlertLedger

  // ---- the declarative reading -----------------------------------------------------------------

  /** Length of the failing run that ends the stream. */
  function FailRun(s: seq<bool>): nat {
    if s == [] || s[|s| - 1] then 0 else 1 + FailRun(s[..|s| - 1])
  }

  function Failures(s: seq<bool>): nat {
    if s == [] then 0 else (if s[|s| - 1] then 0 else 1) + Failures(s[..|s| - 1])
  }

  /** How many thresholds a failing run of this length has reached. */
  function Reached(signal: Signal, run: nat): nat {
    var t := Thresholds(signal);
    (if t[0] <= run then 1 else 0) + (if t[1] <= run then 1 else 0) + (if t[2] <= run then 1 else 0)
  }

  /** What the last sample of a stream announces. */
  function Announced(signal: Signal, s: seq<bool>): Option<Kind>
    requires s != []
  {
    var before := s[..|s| - 1];
    if s[|s| - 1] then (if FailRun(before) > 0 then Some(Recovery) else None)
    else if FailRun(s) == 1 then Some(Failure)
    else if FailRun(s) in Thresholds(signal) then Some(Escalation)
    else None
  }

  function Announcements(signal: Signal, s: seq<bool>): seq<Kind> {
    if s == [] then []
    else Announcements(signal, s[..|s| - 1]) + match Announced(signal, s) case None => [] case Some(k) => [k]
  }

  /** Acceptor of `(failure escalation{0..3} recovery)*`: 0 between episodes, 1 + n after n escalations. */
  function Parsed(kinds: seq<Kind>): Option<nat> {
    if kinds == [] then Some(0)
    else match Parsed(kinds[..|kinds| - 1])
      case None => None
      case Some(n) =>
        match kinds[|kinds| - 1]
        case Failure => if n == 0 then Some(1) else None
        case Escalation => if 1 <= n <= 3 then Some(n + 1) else None
        case Recovery => if n >= 1 then Some(0) else None
  }

  /** The calls of `emit` for one signal, in order. */
  function KindsFor(calls: seq<Call>, key: Key): seq<Kind> {
    if calls == [] then []
    else
      var last := calls[|calls| - 1];
      KindsFor(calls[..|calls| - 1], key) + if last.key == key then [last.kind] else []
  }

  // ---- the invariant ---------------------------------------------------------------------------

  /** A record says exactly what its stream says. */
  ghost predicate Reflects(rec: SignalRecord, signal: Signal, s: seq<bool>) {
    && rec.failing == (FailRun(s) > 0)
    && rec.consecutiveFailures == FailRun(s)
    && rec.totalFailures == Failures(s)
    && rec.escalations == Reached(signal, FailRun(s))
    && (rec.failing <==> rec.episodeId.Some?)
  }

  ghost predicate FollowsSamples(l: Ledger, key: Key) {
    && Reflects(RecordOf(l.st, key), key.signal, SamplesOf(l, key))
    && KindsFor(l.calls, key) == Announcements(key.signal, SamplesOf(l, key))
  }

  ghost predicate SignalsInv(l: Ledger) {
    forall key: Key :: FollowsSamples(l, key)
  }

  lemma SignalsInvWf(l: Ledger)
    requires SignalsInv(l)
    ensures SignalsWf(l.st)
  {
    forall k | k in l.st.signals
      ensures RecordWf(l.st.signals[k])
    {
      assert FollowsSamples(l, k);
    }
  }

  lemma EmptySignals()
    ensures SignalsInv(EMPTY_LEDGER)
  {
  }

  /** One sample moves a record from its stream to the extended stream. */
  lemma SampleReflects(rec: SignalRecord, signal: Signal, s: seq<bool>, ok: bool, now: int, errors: string,
                       episode: nat)
    requires Reflects(rec, signal, s)
    ensures Reflects(Settled(Sampled(rec, signal, ok, now, errors, episode), ok), signal, s + [ok])
    ensures Transition(rec, signal, ok) == Announced(signal, s + [ok])
  {
    var t := s + [ok];
    assert t[..|t| - 1] == s;
    var n := FailRun(s);
    assert FailRun(t) == if ok then 0 else n + 1;
    assert Thresholds(signal)[0] < Thresholds(signal)[1] < Thresholds(signal)[2];
    assert n + 1 in Thresholds(signal) <==>
      n + 1 == Thresholds(signal)[0] || n + 1 == Thresholds(signal)[1] || n + 1 == Thresholds(signal)[2];
  }

  lemma KindsForAppend(calls: seq<Call>, c: Call, key: Key)
    ensures KindsFor(calls + [c], key) == KindsFor(calls, key) + if c.key == key then [c.kind] else []
  {
    assert (calls + [c])[..|calls|] == calls;
  }

  lemma SampledIsNamed(rec: SignalRecord, signal: Signal, ok: bool, now: int, errors: string, episode: nat)
    requires RecordWf(rec) && Transition(rec, signal, ok).Some?
    ensures Sampled(rec, signal, ok, now, errors, episode).episodeId.Some?
  {
  }

  /** The call of `emit` that a sample makes, if it announces something. */
  ghost predicate Calls(l: Ledger, calls: seq<Call>, source: string, key: Key, kind: Kind, rec: SignalRecord, now: int,
                        id: nat)
    requires rec.episodeId.Some?
  {
    exists event: Option<Event> ::
      && calls == l.calls + [Call(key, kind, rec.episodeId.value, event)]
      && (event.Some? ==> event.value == MakeEvent(l.st, now, source, key, kind, rec, rec.lastErrors, id))
  }

  /** What one sample leaves: its record, its place in the stream, and at most one call. */
  lemma ObserveShape(l: Ledger, source: string, key: Key, ok: bool, now: int, errors: string, episode: nat, id: nat)
    requires SignalsWf(l.st)
    ensures var m := Observe(l, source, key, ok, now, errors, episode, id);
            var rec := RecordOf(l.st, key);
            var r := Sampled(rec, key.signal, ok, now, errors, episode);
            && m.st.signals == l.st.signals[key := Settled(r, ok)]
            && m.samples == l.samples[key := SamplesOf(l, key) + [ok]]
            && m.moments == l.moments[key := MomentsOf(l, key) + [Moment(now, if ok then "" else errors)]]
            && (match Transition(rec, key.signal, ok)
                case None => m.calls == l.calls
                case Some(kind) => r.episodeId.Some? && Calls(l, m.calls, source, key, kind, r, now, id))
  {
    hide Sampled, Settled, Transition, MakeEvent, Queued;
    var rec := RecordOf(l.st, key);
    var r := Sampled(rec, key.signal, ok, now, errors, episode);
    if Transition(rec, key.signal, ok).Some? {
      SampledIsNamed(rec, key.signal, ok, now, errors, episode);
      var kind, m := Transition(rec, key.signal, ok).value, Observe(l, source, key, ok, now, errors, episode, id);
      var stored := WithSample(l, key, Settled(r, ok), ok, now, errors);
      SameHeader(l.st, stored.st, now, source, key, kind, r, id);
      var event := m.calls[|l.calls|].event;
      assert m.calls == l.calls + [Call(key, kind, r.episodeId.value, event)];
    }
  }

  lemma SameHeader(st: State, later: State, now: int, source: string, key: Key, kind: Kind, rec: SignalRecord, id: nat)
    requires rec.episodeId.Some? && later.sequence == st.sequence && later.counters == st.counters
    ensures MakeEvent(later, now, source, key, kind, rec, rec.lastErrors, id)
            == MakeEvent(st, now, source, key, kind, rec, rec.lastErrors, id)
  {
  }

  lemma ObserveFollows(l: Ledger, source: string, key: Key, ok: bool, now: int, errors: string, episode: nat, id: nat,
                       other: Key)
    requires SignalsWf(l.st) && FollowsSamples(l, key) && FollowsSamples(l, other)
    ensures FollowsSamples(Observe(l, source, key, ok, now, errors, episode, id), other)
  {
    hide Reflects, Announced, Sampled, Settled, Transition, Observe, KindsFor, MakeEvent;
    ObserveShape(l, source, key, ok, now, errors, episode, id);
    var rec, s := RecordOf(l.st, key), SamplesOf(l, key);
    SampleReflects(rec, key.signal, s, ok, now, errors, episode);
    assert (s + [ok])[..|s|] == s;
    var r := Sampled(rec, key.signal, ok, now, errors, episode);
    var m := Observe(l, source, key, ok, now, errors, episode, id);
    if Transition(rec, key.signal, ok).Some? {
      var kind := Transition(rec, key.signal, ok).value;
      var event: Option<Event> :| m.calls == l.calls + [Call(key, kind, r.episodeId.value, event)];
      KindsForAppend(l.calls, Call(key, kind, r.episodeId.value, event), other);
    }
  }

  lemma ObserveSignals(l: Ledger, source: string, key: Key, ok: bool, now: int, errors: string, episode: nat, id: nat)
    requires SignalsInv(l) && SignalsWf(l.st)
    ensures SignalsInv(Observe(l, source, key, ok, now, errors, episode, id))
  {
    hide Observe, FollowsSamples;
    forall other: Key
      ensures FollowsSamples(Observe(l, source, key, ok, now, errors, episode, id), other)
    {
      ObserveFollows(l, source, key, ok, now, errors, episode, id, other);
    }
  }

  // ---- the law of one signal -------------------------------------------------------------------

  /** Reaching a threshold is meeting it: runs grow by one. */
  lemma ReachedStep(signal: Signal, n: nat)
    ensures Reached(signal, n + 1) == Reached(signal, n) + if n + 1 in Thresholds(signal) then 1 else 0
    ensures Reached(signal, n + 1) <= 3
    ensures Reached(signal, 0) == 0 && Reached(signal, 1) == 0
  {
    var t := Thresholds(signal);
    assert n + 1 in t <==> n + 1 == t[0] || n + 1 == t[1] || n + 1 == t[2];
  }

  lemma ParsedAppend(kinds: seq<Kind>, k: Kind)
    ensures Parsed(kinds + [k]) == match Parsed(kinds)
                                     case None => None
                                     case Some(n) =>
                                       match k
                                       case Failure => if n == 0 then Some(1) else None
                                       case Escalation => if 1 <= n <= 3 then Some(n + 1) else None
                                       case Recovery => if n >= 1 then Some(0) else None
  {
    assert (kinds + [k])[..|kinds|] == kinds;
  }

  /** Where the acceptor stands inside a failing run of this length. */
  function Stage(signal: Signal, run: nat): nat {
    if run == 0 then 0 else 1 + Reached(signal, run)
  }

  lemma LongerRunParsed(signal: Signal, n: nat, said: seq<Kind>)
    requires Parsed(said) == Some(Stage(signal, n))
    ensures n == 0 ==> Parsed(said + [Failure]) == Some(Stage(signal, 1))
    ensures n > 0 && n + 1 in Thresholds(signal) ==> Parsed(said + [Escalation]) == Some(Stage(signal, n + 1))
    ensures n > 0 && n + 1 !in Thresholds(signal) ==> Stage(signal, n) == Stage(signal, n + 1)
    ensures n > 0 ==> Parsed(said + [Recovery]) == Some(0)
  {
    ReachedStep(signal, n);
    ParsedAppend(said, Failure);
    ParsedAppend(said, Escalation);
    ParsedAppend(said, Recovery);
  }

  /** Every stream's announcements follow the grammar, and the acceptor ends where the run ends. */
  lemma {:induction false} AnnouncementsFollowGrammar(signal: Signal, s: seq<bool>)
    ensures Parsed(Announcements(signal, s)) == Some(Stage(signal, FailRun(s)))
  {
    if s != [] {
      var before := s[..|s| - 1];
      var said := Announcements(signal, before);
      AnnouncementsFollowGrammar(signal, before);
      LongerRunParsed(signal, FailRun(before), said);
      assert said + [] == said;
    }
  }
}
