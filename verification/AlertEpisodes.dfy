/** What the events a host has issued tell about the signals that are failing there now. */
module AlertEpisodes {
  import opened HealthEvents
  import opened AlertLedger
  import opened AlertQueue
  import opened AlertRuns
  import opened AlertSignals

  /** The signal is failing, and its current episode is this one. */
  predicate FailingAs(st: State, key: Key, episode: nat) {
    key in st.signals && st.signals[key].failing && st.signals[key].episodeId == Some(episode)
  }

  predicate Faults(events: seq<Event>, key: Key, episode: nat) {
    exists e :: e in events && e.episodeId == episode && e.kind != Recovery && e.group == key.group
        && e.signal == key.signal
  }

  predicate Recovers(events: seq<Event>, episode: nat) {
    exists e :: e in events && e.episodeId == episode && e.kind == Recovery
  }

  /** Every failing signal has announced its episode. */
  ghost predicate Announced(l: Ledger) {
    forall k, p :: FailingAs(l.st, k, p) ==> Faults(Issued(l.calls), k, p)
  }

  /** Every announced episode has recovered or is still the current one of its signal. */
  ghost predicate Current(l: Ledger) {
    forall e | e in Issued(l.calls) && e.kind != Recovery ::
      Recovers(Issued(l.calls), e.episodeId) || FailingAs(l.st, Key(e.group, e.signal), e.episodeId)
  }

  /** As long as no event was dropped, the issued events tell which signals are failing. */
  ghost predicate Faithful(l: Ledger) {
    l.st.counters.dropped == 0 ==> Announced(l) && Current(l)
  }

  predicate Says(e: Event, key: Key, kind: Kind, episode: nat) {
    e.kind == kind && e.group == key.group && e.signal == key.signal && e.episodeId == episode
  }

  lemma MoreEvents(a: seq<Event>, b: seq<Event>, key: Key, p: nat)
    requires forall e | e in a :: e in b
    ensures Faults(a, key, p) ==> Faults(b, key, p)
    ensures Recovers(a, p) ==> Recovers(b, p)
  {
  }

  /** A sample with room in the outbox issues exactly what it announces. */
  lemma SampleIssues(l: Ledger, source: string, uuids: nat, key: Key, ok: bool, now: int, errors: string)
    requires Lawful(l, source, uuids) && SignalsWf(l.st) && Numbered(l)
    requires Observe(l, source, key, ok, now, errors, uuids, uuids + 1).st.counters.dropped == 0
    ensures var m := Observe(l, source, key, ok, now, errors, uuids, uuids + 1);
            var r := Sampled(RecordOf(l.st, key), key.signal, ok, now, errors, uuids);
            var kind := Transition(RecordOf(l.st, key), key.signal, ok);
            && l.st.counters.dropped == 0
            && m.st.signals == l.st.signals[key := Settled(r, ok)]
            && Issued(m.calls) == Issued(l.calls) + Added(l, m)
            && (kind.None? ==> Added(l, m) == [])
            && (kind.Some? ==>
                  && r.episodeId.Some? && |Added(l, m)| == 1
                  && Says(Added(l, m)[0], key, kind.value, r.episodeId.value))
  {
    hide Lawful, Numbered, SignalsWf, Observe, Sampled, Settled, Transition, Issued, LawfulEvents, AddedBy, MakeEvent;
    ObserveIssues(l, source, uuids, key, ok, now, errors);
    ObserveShape(l, source, key, ok, now, errors, uuids, uuids + 1);
    SampleDropsNone(l, source, uuids, key, ok, now, errors);
    ReportsCall(l.st, now, source, key, uuids + 1);
  }

  /** With nothing dropped, nothing was dropped before, and what was announced was issued. */
  lemma SampleDropsNone(l: Ledger, source: string, uuids: nat, key: Key, ok: bool, now: int, errors: string)
    requires SignalsWf(l.st)
    ensures var m := Observe(l, source, key, ok, now, errors, uuids, uuids + 1);
            m.st.counters.dropped == 0 ==>
              && l.st.counters.dropped == 0
              && (Transition(RecordOf(l.st, key), key.signal, ok).Some? ==>
                    m.calls != [] && m.calls[|m.calls| - 1].event.Some?)
  {
    hide Sampled, Settled, Transition, MakeEvent, Queued;
    if Transition(RecordOf(l.st, key), key.signal, ok).Some? {
      SampledIsNamed(RecordOf(l.st, key), key.signal, ok, now, errors, uuids);
    }
  }

  lemma ReportsCall(st: State, now: int, source: string, key: Key, id: nat)
    ensures forall kind, rec: SignalRecord, evidence | rec.episodeId.Some? ::
              Says(MakeEvent(st, now, source, key, kind, rec, evidence, id), key, kind, rec.episodeId.value)
  {
  }

  lemma SampleAnnounces(l: Ledger, source: string, uuids: nat, key: Key, ok: bool, now: int, errors: string)
    requires Lawful(l, source, uuids) && SignalsWf(l.st) && Numbered(l) && Announced(l)
    requires Observe(l, source, key, ok, now, errors, uuids, uuids + 1).st.counters.dropped == 0
    ensures Announced(Observe(l, source, key, ok, now, errors, uuids, uuids + 1))
  {
    hide Observe, Lawful, Numbered, Issued, Added, SignalsWf;
    var m := Observe(l, source, key, ok, now, errors, uuids, uuids + 1);
    SampleIssues(l, source, uuids, key, ok, now, errors);
    forall k, p | FailingAs(m.st, k, p)
      ensures Faults(Issued(m.calls), k, p)
    {
      MoreEvents(Issued(l.calls), Issued(m.calls), k, p);
      if k != key || RecordOf(l.st, key).failing {
        assert FailingAs(l.st, k, p);
      } else {
        assert Added(l, m)[0] in Issued(m.calls);
      }
    }
  }

  lemma SampleIsCurrent(l: Ledger, source: string, uuids: nat, key: Key, ok: bool, now: int, errors: string)
    requires Lawful(l, source, uuids) && SignalsWf(l.st) && Numbered(l) && Current(l)
    requires Observe(l, source, key, ok, now, errors, uuids, uuids + 1).st.counters.dropped == 0
    ensures Current(Observe(l, source, key, ok, now, errors, uuids, uuids + 1))
  {
    hide Observe, Lawful, Numbered, Issued, Added, SignalsWf;
    var m := Observe(l, source, key, ok, now, errors, uuids, uuids + 1);
    SampleIssues(l, source, uuids, key, ok, now, errors);
    forall e | e in Issued(m.calls) && e.kind != Recovery
      ensures Recovers(Issued(m.calls), e.episodeId) || FailingAs(m.st, Key(e.group, e.signal), e.episodeId)
    {
      MoreEvents(Issued(l.calls), Issued(m.calls), key, e.episodeId);
      if e in Issued(l.calls) && FailingAs(l.st, key, e.episodeId) && ok {
        assert Added(l, m)[0] in Issued(m.calls);
      }
    }
  }

  lemma SampleKeepsFaith(l: Ledger, source: string, uuids: nat, key: Key, ok: bool, now: int, errors: string)
    requires LedgerInv(l, source, uuids) && SignalsWf(l.st) && Faithful(l)
    ensures Faithful(Observe(l, source, key, ok, now, errors, uuids, uuids + 1))
  {
    hide Announced, Current, Lawful;
    if Observe(l, source, key, ok, now, errors, uuids, uuids + 1).st.counters.dropped == 0 {
      SampleIssues(l, source, uuids, key, ok, now, errors);
      SampleAnnounces(l, source, uuids, key, ok, now, errors);
      SampleIsCurrent(l, source, uuids, key, ok, now, errors);
    }
  }

  lemma StepKeepsFaith(source: string, s: Sys, a: Action)
    requires SysInv(source, s) && Enabled(s, a) && Faithful(s.mem) && Faithful(s.disk)
    ensures Faithful(Effect(source, s, a).mem) && Faithful(Effect(source, s, a).disk)
  {
    hide SysInv, LedgerInv, Faithful, Effect, SignalsWf;
    if a.Sample? {
      SampleStep(source, s, a);
      SampleKeepsFaith(s.mem, source, s.uuids, a.key, a.ok, a.now, a.errors);
    } else {
      QuietStep(source, s, a);
      if !a.Reload? {
        SameSignals(s.mem, Effect(source, s, a).mem);
      }
    }
  }

  lemma SampleStep(source: string, s: Sys, a: Action)
    requires SysInv(source, s) && Enabled(s, a) && a.Sample?
    ensures LedgerInv(s.mem, source, s.uuids) && SignalsWf(s.mem.st)
    ensures Effect(source, s, a).mem
            == Observe(s.mem, source, a.key, a.ok, a.now, a.errors, s.uuids, s.uuids + 1)
    ensures Effect(source, s, a).disk == s.disk
  {
    hide LedgerInv, Observe;
  }

  /** What is no sample leaves signals, calls and drops alone, and saves nothing else. */
  lemma QuietStep(source: string, s: Sys, a: Action)
    requires Enabled(s, a) && !a.Sample?
    ensures var t := Effect(source, s, a);
            && (t.disk == s.disk || t.disk == s.mem || t.disk == t.mem)
            && (if a.Reload? then t.mem == s.disk
                else
                  t.mem.calls == s.mem.calls && t.mem.st.signals == s.mem.st.signals
                  && t.mem.st.counters.dropped == s.mem.st.counters.dropped)
  {
    hide Trimmed, Outstanding, RearmedAll;
  }

  lemma SameSignals(l: Ledger, m: Ledger)
    requires Faithful(l) && m.calls == l.calls && m.st.signals == l.st.signals
             && m.st.counters.dropped == l.st.counters.dropped
    ensures Faithful(m)
  {
  }

  lemma NothingIssued()
    ensures Faithful(EMPTY_LEDGER)
  {
  }

  lemma {:induction false} RunKeepsFaith(source: string, actions: seq<Action>)
    requires Run(source, INITIAL, actions).Some?
    ensures Faithful(Run(source, INITIAL, actions).value.mem) && Faithful(Run(source, INITIAL, actions).value.disk)
  {
    hide SysInv, Faithful, Enabled, Effect;
    if actions == [] {
      NothingIssued();
    } else {
      var before := actions[..|actions| - 1];
      RunKeepsFaith(source, before);
      InitialInv(source);
      RunKeepsInv(source, INITIAL, before);
      StepKeepsFaith(source, Run(source, INITIAL, before).value, actions[|actions| - 1]);
    }
  }

  lemma OpenEpisodesStayOpen(l: Ledger, source: string, uuids: nat, key: Key, p: nat)
    requires Lawful(l, source, uuids) && FailingAs(l.st, key, p)
    ensures !Recovers(Issued(l.calls), p)
  {
    assert OpenEpisode(Issued(l.calls), key, p);
  }

  /** While nothing was dropped, an episode is the current one of a failing signal exactly when a
      failure or escalation of it was issued under that signal and no recovery was. */
  lemma EventsTellSignals(source: string, s: Sys, key: Key, p: nat)
    requires Reachable(source, s) && s.disk.st.counters.dropped == 0
    ensures FailingAs(s.disk.st, key, p) <==> Faults(Issued(s.disk.calls), key, p) && !Recovers(Issued(s.disk.calls), p)
  {
    var actions :| Run(source, INITIAL, actions) == Some(s);
    RunKeepsFaith(source, actions);
    ReachableInv(source, s);
    if FailingAs(s.disk.st, key, p) {
      assert Lawful(s.disk, source, s.uuids);
      OpenEpisodesStayOpen(s.disk, source, s.uuids, key, p);
    }
  }
}
