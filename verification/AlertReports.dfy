/** What an event reports against the samples of its signal, and when they were taken. */
module AlertReports {
  import opened HealthEvents
  import opened AlertLedger
  import opened AlertSignals
  import opened AlertRuns

  /** What one announced sample has to report. */
  datatype Report = Report(kind: Kind, at: int, firstFailureAt: int, run: nat, failures: nat,
                           lastSuccessAt: Option<int>, errors: string)

  lemma {:induction false} RunIsShort(s: seq<bool>)
    ensures FailRun(s) <= |s|
  {
    if s != [] && !s[|s| - 1] {
      RunIsShort(s[..|s| - 1]);
    }
  }

  /** When the failing run that ends the stream began. */
  function RunStart(s: seq<bool>, w: seq<Moment>): int
    requires |w| == |s| && FailRun(s) > 0
  {
    RunIsShort(s);
    w[|s| - FailRun(s)].at
  }

  function LastSuccess(s: seq<bool>, w: seq<Moment>): Option<int>
    requires |w| == |s|
  {
    if s == [] then None
    else if s[|s| - 1] then Some(w[|s| - 1].at) else LastSuccess(s[..|s| - 1], w[..|s| - 1])
  }

  /** What the last failing sample complained of. */
  function LastErrors(s: seq<bool>, w: seq<Moment>): string
    requires |w| == |s|
  {
    if s == [] then ""
    else if !s[|s| - 1] then w[|s| - 1].errors else LastErrors(s[..|s| - 1], w[..|s| - 1])
  }

  /** What the last sample has to report: a recovery closes the failing run before it. */
  function ReportOf(signal: Signal, s: seq<bool>, w: seq<Moment>): (r: Option<Report>)
    requires s != [] && |w| == |s|
  {
    match Announced(signal, s)
    case None => None
    case Some(kind) =>
      var n := |s| - 1;
      var failing, when := if s[n] then s[..n] else s, if s[n] then w[..n] else w;
      Some(Report(kind, w[n].at, RunStart(failing, when), FailRun(failing), Failures(s), LastSuccess(s, w),
                  LastErrors(s, w)))
  }

  function Reports(signal: Signal, s: seq<bool>, w: seq<Moment>): seq<Report>
    requires |w| == |s|
  {
    if s == [] then []
    else
      var n := |s| - 1;
      Reports(signal, s[..n], w[..n]) + match ReportOf(signal, s, w) case None => [] case Some(r) => [r]
  }

  /** The events of the calls for one signal, `None` where the event was dropped. */
  function EventsFor(calls: seq<Call>, key: Key): seq<Option<Event>> {
    if calls == [] then []
    else
      var last := calls[|calls| - 1];
      EventsFor(calls[..|calls| - 1], key) + if last.key == key then [last.event] else []
  }

  predicate Tells(e: Event, source: string, key: Key, r: Report) {
    && e.source == source && e.group == key.group && e.signal == key.signal
    && e.kind == r.kind && e.occurredAt == r.at && e.firstFailureAt == Some(r.firstFailureAt)
    && e.consecutiveFailures == r.run && e.totalFailures == r.failures
    && e.lastSuccessAt == r.lastSuccessAt && e.evidence == r.errors
  }

  predicate AllTell(events: seq<Option<Event>>, source: string, key: Key, reports: seq<Report>) {
    && |events| == |reports|
    && forall i | 0 <= i < |events| && events[i].Some? :: Tells(events[i].value, source, key, reports[i])
  }

  // ---- the invariant ---------------------------------------------------------------------------

  /** A record remembers when its failing run began, the last success and the last complaint. */
  ghost predicate Remembers(rec: SignalRecord, s: seq<bool>, w: seq<Moment>) {
    && |w| == |s|
    && (FailRun(s) > 0 ==> rec.firstFailureAt == Some(RunStart(s, w)))
    && rec.lastSuccessAt == LastSuccess(s, w)
    && rec.lastErrors == LastErrors(s, w)
  }

  ghost predicate ReportsSamples(l: Ledger, source: string, key: Key) {
    && Remembers(RecordOf(l.st, key), SamplesOf(l, key), MomentsOf(l, key))
    && AllTell(EventsFor(l.calls, key), source, key, Reports(key.signal, SamplesOf(l, key), MomentsOf(l, key)))
  }

  /** An event tells how many were dropped before it: numbers and drops make up the calls. */
  ghost predicate Tallies(calls: seq<Call>) {
    forall c | 0 <= c < |calls| && calls[c].event.Some? ::
      calls[c].event.value.sequence + calls[c].event.value.droppedEvents == c + 1
  }

  ghost predicate ReportsInv(l: Ledger, source: string) {
    (forall key: Key :: ReportsSamples(l, source, key)) && Tallies(l.calls)
  }

  lemma EmptyReports(source: string)
    ensures ReportsInv(EMPTY_LEDGER, source)
  {
  }

  lemma SampleRemembers(rec: SignalRecord, signal: Signal, s: seq<bool>, w: seq<Moment>, ok: bool, now: int,
                        errors: string, episode: nat)
    requires Reflects(rec, signal, s) && Remembers(rec, s, w)
    ensures var r := Sampled(rec, signal, ok, now, errors, episode);
            var t, v := s + [ok], w + [Moment(now, if ok then "" else errors)];
            && Remembers(Settled(r, ok), t, v)
            && (match ReportOf(signal, t, v)
                case None => Transition(rec, signal, ok).None?
                case Some(report) =>
                  && Transition(rec, signal, ok) == Some(report.kind) && report.at == now
                  && r.firstFailureAt == Some(report.firstFailureAt) && r.consecutiveFailures == report.run
                  && r.totalFailures == report.failures && r.lastSuccessAt == report.lastSuccessAt
                  && r.lastErrors == report.errors)
  {
    var t, v := s + [ok], w + [Moment(now, if ok then "" else errors)];
    SampleReflects(rec, signal, s, ok, now, errors, episode);
    assert t[..|s|] == s && v[..|s|] == w;
    RunIsShort(s);
    RunIsShort(t);
    hide Reached, Escalates;
    assert FailRun(t) == if ok then 0 else FailRun(s) + 1;
    if !ok {
      assert v[|t| - FailRun(t)] == if FailRun(s) > 0 then w[|s| - FailRun(s)] else v[|s|];
    }
  }

  lemma EventsForAppend(calls: seq<Call>, c: Call, key: Key)
    ensures EventsFor(calls + [c], key)
            == if c.key == key then EventsFor(calls, key) + [c.event] else EventsFor(calls, key)
  {
    assert EventsFor(calls, key) + [] == EventsFor(calls, key);
    assert (calls + [c])[..|calls|] == calls;
  }

  /** The event of a call is made of the record at that moment. */
  lemma MadeTells(st: State, now: int, source: string, key: Key, rec: SignalRecord, id: nat, r: Report)
    requires rec.episodeId.Some? && rec.firstFailureAt == Some(r.firstFailureAt) && rec.consecutiveFailures == r.run
    requires rec.totalFailures == r.failures && rec.lastSuccessAt == r.lastSuccessAt && rec.lastErrors == r.errors
    requires r.at == now
    ensures Tells(MakeEvent(st, now, source, key, r.kind, rec, rec.lastErrors, id), source, key, r)
  {
  }

  lemma AllTellNext(events: seq<Option<Event>>, source: string, key: Key, reports: seq<Report>, event: Option<Event>,
                    r: Report)
    requires AllTell(events, source, key, reports) && (event.Some? ==> Tells(event.value, source, key, r))
    ensures AllTell(events + [event], source, key, reports + [r])
  {
    hide Tells;
  }

  lemma ReportsNext(signal: Signal, s: seq<bool>, w: seq<Moment>, ok: bool, moment: Moment)
    requires |w| == |s|
    ensures Reports(signal, s + [ok], w + [moment])
            == match ReportOf(signal, s + [ok], w + [moment])
               case None => Reports(signal, s, w)
               case Some(r) => Reports(signal, s, w) + [r]
  {
    assert Reports(signal, s, w) + [] == Reports(signal, s, w);
    hide ReportOf;
    assert (s + [ok])[..|s|] == s && (w + [moment])[..|s|] == w;
  }

  lemma ObserveReports(l: Ledger, source: string, key: Key, ok: bool, now: int, errors: string, episode: nat, id: nat)
    requires SignalsWf(l.st) && FollowsSamples(l, key) && ReportsSamples(l, source, key)
    ensures ReportsSamples(Observe(l, source, key, ok, now, errors, episode, id), source, key)
  {
    hide Reflects, Remembers, Sampled, Settled, Transition, Observe, EventsFor, MakeEvent, Reports, ReportOf, Tells,
      AllTell;
    ObserveShape(l, source, key, ok, now, errors, episode, id);
    var rec, s, w := RecordOf(l.st, key), SamplesOf(l, key), MomentsOf(l, key);
    var moment := Moment(now, if ok then "" else errors);
    RemembersSize(rec, s, w);
    SampleRemembers(rec, key.signal, s, w, ok, now, errors, episode);
    ReportsNext(key.signal, s, w, ok, moment);
    var r := Sampled(rec, key.signal, ok, now, errors, episode);
    var m := Observe(l, source, key, ok, now, errors, episode, id);
    var report := ReportOf(key.signal, s + [ok], w + [moment]);
    if report.Some? {
      var event: Option<Event> :| m.calls == l.calls + [Call(key, report.value.kind, r.episodeId.value, event)]
        && (event.Some? ==> event.value == MakeEvent(l.st, now, source, key, report.value.kind, r, r.lastErrors, id));
      EventsForAppend(l.calls, Call(key, report.value.kind, r.episodeId.value, event), key);
      MadeTells(l.st, now, source, key, r, id, report.value);
      AllTellNext(EventsFor(l.calls, key), source, key, Reports(key.signal, s, w), event, report.value);
    }
  }

  lemma RemembersSize(rec: SignalRecord, s: seq<bool>, w: seq<Moment>)
    requires Remembers(rec, s, w)
    ensures |w| == |s|
  {
  }

  lemma OthersReport(l: Ledger, source: string, key: Key, ok: bool, now: int, errors: string, episode: nat, id: nat,
                     other: Key)
    requires SignalsWf(l.st) && ReportsSamples(l, source, other) && other != key
    ensures ReportsSamples(Observe(l, source, key, ok, now, errors, episode, id), source, other)
  {
    hide Remembers, Sampled, Settled, Transition, Observe, EventsFor, MakeEvent, Reports, AllTell;
    ObserveShape(l, source, key, ok, now, errors, episode, id);
    var rec := RecordOf(l.st, key);
    var r := Sampled(rec, key.signal, ok, now, errors, episode);
    var m := Observe(l, source, key, ok, now, errors, episode, id);
    if Transition(rec, key.signal, ok).Some? {
      var kind := Transition(rec, key.signal, ok).value;
      var event: Option<Event> :| m.calls == l.calls + [Call(key, kind, r.episodeId.value, event)];
      EventsForAppend(l.calls, Call(key, kind, r.episodeId.value, event), other);
    }
  }

  lemma ObserveTallies(l: Ledger, source: string, key: Key, ok: bool, now: int, errors: string, episode: nat, id: nat)
    requires SignalsWf(l.st) && Tallies(l.calls) && |l.calls| == l.st.sequence + l.st.counters.dropped
    ensures Tallies(Observe(l, source, key, ok, now, errors, episode, id).calls)
  {
    hide Sampled, Settled, Transition, Observe;
    ObserveShape(l, source, key, ok, now, errors, episode, id);
  }

  lemma ObserveKeepsReports(l: Ledger, source: string, uuids: nat, key: Key, ok: bool, now: int, errors: string)
    requires LedgerInv(l, source, uuids) && ReportsInv(l, source)
    ensures ReportsInv(Observe(l, source, key, ok, now, errors, uuids, uuids + 1), source)
  {
    SignalsInvWf(l);
    assert FollowsSamples(l, key);
    assert |l.calls| == l.st.sequence + l.st.counters.dropped;
    hide Observe, FollowsSamples, ReportsSamples, LedgerInv, Tallies;
    ObserveTallies(l, source, key, ok, now, errors, uuids, uuids + 1);
    var m := Observe(l, source, key, ok, now, errors, uuids, uuids + 1);
    forall other: Key
      ensures ReportsSamples(m, source, other)
    {
      if other == key {
        ObserveReports(l, source, key, ok, now, errors, uuids, uuids + 1);
      } else {
        OthersReport(l, source, key, ok, now, errors, uuids, uuids + 1, other);
      }
    }
  }

  lemma SameReports(l: Ledger, m: Ledger, source: string)
    requires ReportsInv(l, source) && m.st.signals == l.st.signals && m.calls == l.calls
    requires m.samples == l.samples && m.moments == l.moments
    ensures ReportsInv(m, source)
  {
    hide Remembers, AllTell, Reports;
    forall key: Key
      ensures ReportsSamples(m, source, key)
    {
      assert ReportsSamples(l, source, key);
    }
  }

  lemma StepKeepsReports(source: string, s: Sys, a: Action)
    requires SysInv(source, s) && Enabled(s, a) && ReportsInv(s.mem, source) && ReportsInv(s.disk, source)
    ensures ReportsInv(Effect(source, s, a).mem, source) && ReportsInv(Effect(source, s, a).disk, source)
  {
    hide LedgerInv, ReportsInv, Observe;
    var m := Effect(source, s, a).mem;
    if a.Sample? {
      ObserveKeepsReports(s.mem, source, s.uuids, a.key, a.ok, a.now, a.errors);
    } else if !a.Reload? {
      assert m.st.signals == s.mem.st.signals && m.calls == s.mem.calls;
      assert m.samples == s.mem.samples && m.moments == s.mem.moments;
      SameReports(s.mem, m, source);
    }
  }

  lemma {:induction false} RunKeepsReports(source: string, actions: seq<Action>)
    requires Run(source, INITIAL, actions).Some?
    ensures var s := Run(source, INITIAL, actions).value; ReportsInv(s.mem, source) && ReportsInv(s.disk, source)
  {
    hide SysInv, ReportsInv, Enabled, Effect;
    if actions == [] {
      EmptyReports(source);
    } else {
      var before := actions[..|actions| - 1];
      RunKeepsReports(source, before);
      InitialInv(source);
      RunKeepsInv(source, INITIAL, before);
      StepKeepsReports(source, Run(source, INITIAL, before).value, actions[|actions| - 1]);
    }
  }

  /** In every reachable state the i-th announcement of a signal's stream has its call, and the event of that
      call, unless it was dropped, reports the stream as it stood at that sample: when, since when it had
      been failing, how long the failing run was, how many failures there were in all, the last success
      and the last complaint; and every event tells how many were dropped before it. */
  lemma EventsReportTheirStream(source: string, s: Sys, key: Key)
    requires Reachable(source, s)
    ensures |MomentsOf(s.disk, key)| == |SamplesOf(s.disk, key)|
    ensures AllTell(EventsFor(s.disk.calls, key), source, key,
                    Reports(key.signal, SamplesOf(s.disk, key), MomentsOf(s.disk, key)))
    ensures Tallies(s.disk.calls)
  {
    var actions :| Run(source, INITIAL, actions) == Some(s);
    RunKeepsReports(source, actions);
    assert ReportsSamples(s.disk, source, key);
  }
}
