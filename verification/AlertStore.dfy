/** The alert state as the program keeps it: fields updated in place under the lock, and the state
    file that `save` replaces.  Every method is tied to the steps of `AlertRuns`. */
module AlertStore {
  import opened HealthEvents
  import opened AlertLedger
  import opened AlertSignals
  import opened AlertQueue
  import opened AlertRuns

  class Store {
    const source: string

    var sequence: nat
    var signals: map<Key, SignalRecord>
    var outbox: seq<Entry>
    var history: seq<Entry>
    var invocations: seq<string>
    var transport: Transport
    var counters: Counters

    var file: State                 // state.json
    var uuids: nat                  // the UUID source

    ghost var trail: Ledger         // samples, calls and evicted events
    ghost var durable: Ledger       // what the file stands for
    ghost var sent: seq<Event>
    ghost var armed: Option<nat>

    ghost function Mem(): Ledger
      reads this
    {
      trail.(st := State(sequence, signals, outbox, history, invocations, transport, counters))
    }

    ghost function View(): Sys
      reads this
    {
      Sys(durable, Mem(), uuids, sent, armed)
    }

    /** The file is what it stands for, and the whole system is in a reachable-state invariant. */
    ghost predicate Valid()
      reads this
    {
      file == durable.st && SysInv(source, View())
    }

    constructor (source: string)
      ensures this.source == source && View() == INITIAL && Valid()
    {
      hide SysInv;
      this.source := source;
      sequence, signals, outbox, history, invocations := 0, map[], [], [], [];
      transport, counters := EMPTY_STATE.transport, EMPTY_STATE.counters;
      file, uuids := EMPTY_STATE, 0;
      trail, durable := EMPTY_LEDGER, EMPTY_LEDGER;
      sent, armed := [], None;
      new;
      InitialInv(source);
    }

    /** Start a locked invocation: everything not saved is forgotten. */
    method Load()
      requires Valid()
      modifies this
      ensures Valid() && View() == Effect(source, old(View()), Reload)
    {
      hide SysInv, Effect, Enabled;
      Reloads(source, View());
      sequence, signals, outbox, history := file.sequence, file.signals, file.outbox, file.history;
      invocations, transport, counters := file.invocations, file.transport, file.counters;
      trail, armed := durable, None;
    }

    /** Replace the state file, unless the state is not one that a later `Load` would accept. */
    method Save() returns (ok: bool)
      modifies this`file, this`durable
      ensures ok == ValidState(Mem().st)
      ensures ok ==> file == Mem().st && durable == Mem()
      ensures !ok ==> file == old(file) && durable == old(durable)
    {
      var st := State(sequence, signals, outbox, history, invocations, transport, counters);
      ok := ValidState(st);
      if ok {
        file := st;
        durable := Mem();
      }
    }

    /** In a reachable state the file is always replaced. */
    method Commit()
      requires Valid() && armed.None?
      modifies this`file, this`durable
      ensures Valid() && View() == Effect(source, old(View()), AlertRuns.Save)
    {
      hide SysInv;
      MemIsValid();
      StepKeepsInv(source, View(), AlertRuns.Save);
      var ok := Save();
    }

    lemma MemIsValid()
      requires SysInv(source, View())
      ensures ValidState(Mem().st) && QueueInv(Mem()) && SignalsWf(Mem().st)
    {
      SignalsInvWf(Mem());
      ReachedStatesAreValid(Mem());
    }

    // ---- observe and emit ----------------------------------------------------------------------

    method Emit(now: int, key: Key, kind: Kind, rec: SignalRecord, evidence: string, id: nat)
      requires rec.episodeId.Some?
      modifies this`sequence, this`outbox, this`transport, this`counters, this`trail
      ensures Mem() == AlertLedger.Emit(old(Mem()), now, source, key, kind, rec, evidence, id)
    {
      if |outbox| >= OUTBOX_LIMIT {
        counters := counters.(dropped := counters.dropped + 1);
        transport := transport.(degraded := true, lastError := OutboxCapacity, lastErrorAt := Some(now));
        trail := trail.(calls := trail.calls + [Call(key, kind, rec.episodeId.value, None)]);
      } else {
        sequence := sequence + 1;
        var event := Event(id, source, key.group, key.signal, kind, rec.episodeId.value, sequence, now,
                           rec.firstFailureAt,
                           rec.consecutiveFailures, rec.totalFailures, rec.lastSuccessAt, evidence, counters.dropped);
        outbox := outbox + [Entry(event, Some(event), Pending, 0, now, None, None)];
        trail := trail.(calls := trail.calls + [Call(key, kind, rec.episodeId.value, Some(event))]);
      }
    }

    method NoteSuccess(key: Key, now: int, id: nat)
      requires SignalsWf(Mem().st)
      modifies this`sequence, this`signals, this`outbox, this`transport, this`counters, this`trail
      ensures forall episode, errors ::
                Mem() == AlertLedger.Observe(old(Mem()), source, key, true, now, errors, episode, id)
    {
      trail := trail.(samples := trail.samples[key := SamplesOf(Mem(), key) + [true]],
                      moments := trail.moments[key := MomentsOf(Mem(), key) + [Moment(now, "")]]);
      var rec := if key in signals then signals[key] else FRESH_RECORD;
      rec := rec.(lastSuccessAt := Some(now));
      if !rec.failing {
        signals := signals[key := rec];
      } else {
        signals := signals[key := rec.(failing := false, episodeId := None, consecutiveFailures := 0,
                                       escalations := 0)];
        Emit(now, key, Recovery, rec, rec.lastErrors, id);
      }
    }

    method NoteFailure(key: Key, now: int, errors: string, episode: nat, id: nat)
      requires SignalsWf(Mem().st)
      modifies this`sequence, this`signals, this`outbox, this`transport, this`counters, this`trail
      ensures Mem() == AlertLedger.Observe(old(Mem()), source, key, false, now, errors, episode, id)
    {
      trail := trail.(samples := trail.samples[key := SamplesOf(Mem(), key) + [false]],
                      moments := trail.moments[key := MomentsOf(Mem(), key) + [Moment(now, errors)]]);
      var rec := if key in signals then signals[key] else FRESH_RECORD;
      var failing := rec.failing;
      rec := rec.(totalFailures := rec.totalFailures + 1, lastFailureAt := Some(now), lastErrors := errors);
      if !failing {
        rec := rec.(failing := true, episodeId := Some(episode), firstFailureAt := Some(now), consecutiveFailures := 1,
                    escalations := 0);
        signals := signals[key := rec];
        Emit(now, key, Failure, rec, rec.lastErrors, id);
      } else {
        rec := rec.(consecutiveFailures := rec.consecutiveFailures + 1);
        var thresholds := Thresholds(key.signal);
        if rec.escalations < |thresholds| && rec.consecutiveFailures >= thresholds[rec.escalations] {
          rec := rec.(escalations := rec.escalations + 1);
          signals := signals[key := rec];
          Emit(now, key, Escalation, rec, rec.lastErrors, id);
        } else {
          signals := signals[key := rec];
        }
      }
    }

    /** Advance one signal's episode.  Refuses a new signal when the table is full. */
    method Observe(key: Key, ok: bool, now: int, errors: string) returns (done: bool)
      requires Valid() && armed.None?
      modifies this`sequence, this`signals, this`outbox, this`transport, this`counters, this`uuids, this`trail
      ensures Valid()
      ensures done == (key in old(signals) || |old(signals)| < SIGNAL_LIMIT)
      ensures done ==> Enabled(old(View()), Sample(key, ok, now, errors))
      ensures if done then View() == Effect(source, old(View()), Sample(key, ok, now, errors))
              else View() == old(View())
    {
      hide SysInv, AlertLedger.Observe, ValidState, QueueInv;
      if key !in signals && |signals| >= SIGNAL_LIMIT {
        return false;
      }
      MemIsValid();
      StepKeepsInv(source, View(), Sample(key, ok, now, errors));
      var episode, id := uuids, uuids + 1;
      uuids := uuids + 2;
      done := true;
      if ok {
        NoteSuccess(key, now, id);
        assert Mem() == AlertLedger.Observe(old(Mem()), source, key, true, now, errors, episode, id);
      } else {
        NoteFailure(key, now, errors, episode, id);
      }
    }

    /** A renewal invocation is recorded once; only the newest `INVOCATION_LIMIT` are remembered. */
    method RecordRenewal(invocation: string, group: string, ok: bool, now: int, errors: string) returns (recorded: bool)
      requires Valid() && armed.None?
      modifies this
      ensures Valid()
      ensures recorded <==>
        invocation !in old(invocations) && (Key(group, Renewal) in old(signals) || |old(signals)| < SIGNAL_LIMIT)
      ensures invocation in old(invocations) ==> View() == old(View())
      ensures !recorded && invocation !in old(invocations) ==> View() == Effect(source, old(View()), Reload)
      ensures recorded ==>
        Run(source, old(View()), [Record(invocation), Sample(Key(group, Renewal), ok, now, errors), AlertRuns.Save])
            == Some(View())
      ensures recorded ==>
        if |old(invocations)| < 64 then invocations == old(invocations) + [invocation]
        else |old(invocations)| == 64 && invocations == old(invocations)[1..] + [invocation]
    {
      hide SysInv, AlertLedger.Observe, SignalsWf, QueueInv;
      MemIsValid();
      if invocation in invocations {
        return false;
      }
      ghost var before := View();
      StepKeepsInv(source, before, Record(invocation));
      invocations := invocations + [invocation];
      if |invocations| > INVOCATION_LIMIT {
        invocations := invocations[|invocations| - INVOCATION_LIMIT..];
      }
      ghost var middle := View();
      assert middle == Effect(source, before, Record(invocation));
      recorded := Observe(Key(group, Renewal), ok, now, errors);
      if recorded {
        ghost var sampled := View();
        Commit();
        RunThree(source, before, Record(invocation), Sample(Key(group, Renewal), ok, now, errors), AlertRuns.Save);
      } else {
        Load();
      }
    }

    // ---- redrive -------------------------------------------------------------------------------

    /** Retry exhausted events under their original identity. */
    method Redrive(now: int) returns (count: nat)
      requires Valid() && armed.None?
      modifies this`outbox
      ensures Valid() && View() == Effect(source, old(View()), Rearm(now))
      ensures |outbox| == |old(outbox)|
      ensures forall k | 0 <= k < |outbox| :: Retried(old(outbox)[k], outbox[k], now)
      ensures count == Count(old(outbox), OfStatus(Exhausted))
    {
      hide SysInv, Effect, Enabled, RearmedAll, ValidState, QueueInv, Retried, Count;
      Rearms(source, View(), now);
      count := 0;
      ghost var was := outbox;
      CountNone(was, OfStatus(Exhausted));
      for i := 0 to |outbox|
        invariant |outbox| == |was|
        invariant forall k | 0 <= k < i :: outbox[k] == Rearmed(was[k], now)
        invariant forall k | i <= k < |was| :: outbox[k] == was[k]
        invariant count == Count(was[..i], OfStatus(Exhausted))
      {
        CountNext(was, i, OfStatus(Exhausted));
        if outbox[i].status == Exhausted {
          outbox := outbox[i := outbox[i].(status := Pending, attempts := 0, nextAttemptAt := now)];
          count := count + 1;
        }
      }
      assert was[..|was|] == was;
      RearmedIsAll(was, outbox, now);
      RearmedRetries(was, outbox, now);
    }

    // ---- deliver -------------------------------------------------------------------------------

    /** Resolve the entry and retire it to the history, discarding accepted history to make room. */
    method Retire(i: nat, reply: Reply)
      requires i < |outbox| && reply.Terminal?
      modifies this`outbox, this`history, this`trail
      ensures Mem() == Retired(old(Mem()), i, reply)
    {
      var entry := outbox[i].(status := reply.status, runId := Some(reply.run), lastError := None);
      var kept := history + [entry];
      ghost var all, gone := kept, [];
      var full := false;
      assert gone + Trimmed(kept).1 == Trimmed(kept).1;
      while |kept| > HISTORY_LIMIT && !full
        invariant Trimmed(all) == (Trimmed(kept).0, gone + Trimmed(kept).1)
        invariant full ==> |kept| > HISTORY_LIMIT && FirstAccepted(kept).None?
        decreases |kept|, !full
      {
        var disposable := FirstAccepted(kept);
        if disposable.None? {
          full := true;
        } else {
          ghost var rest := Trimmed(Remove(kept, disposable.value)).1;
          assert gone + ([kept[disposable.value]] + rest) == (gone + [kept[disposable.value]]) + rest;
          gone := gone + [kept[disposable.value]];
          kept := Remove(kept, disposable.value);
        }
      }
      if |kept| <= HISTORY_LIMIT {
        outbox := Remove(outbox, i);
        history := kept;
        trail := trail.(evicted := trail.evicted + gone);
      } else {
        outbox := outbox[i := entry];
      }
    }

    predicate IsOutstanding()
      reads this
    {
      || counters.skipped > 0 || counters.dropped > 0 || counters.unconfirmed > 0
      || exists k | 0 <= k < |outbox| :: outbox[k].status == Exhausted || outbox[k].lastError.Some?
    }

    method Answer(i: nat, reply: Reply, now: int)
      requires i < |outbox|
      modifies this`outbox, this`history, this`trail, this`transport, this`counters
      ensures Mem() == Answered(old(Mem()), i, reply, now)
    {
      if IsTerminal(reply) {
        Retire(i, reply);
        transport := transport.(degraded := IsOutstanding() || reply.status != Accepted, consecutiveFailures := 0,
                                lastError := if reply.status == Duplicate then AdmissionUnconfirmed
                                             else if reply.status == Skipped then AdmissionSkipped else Clean);
        if reply.status == Duplicate {
          counters := counters.(unconfirmed := counters.unconfirmed + 1);
        }
        if reply.status == Skipped {
          counters := counters.(skipped := counters.skipped + 1);
        }
        transport := transport.(degraded := transport.degraded || IsOutstanding());
      } else {
        Fail(i, if reply.Faulted? then reply.fault else InvalidResponse, now);
      }
    }

    method Fail(i: nat, fault: Fault, now: int)
      requires i < |outbox|
      modifies this`outbox, this`transport, this`counters
      ensures Mem() == Failed(old(Mem()), i, fault, now)
    {
      outbox := outbox[i := outbox[i].(lastError := Some(fault))];
      transport := transport.(consecutiveFailures := transport.consecutiveFailures + 1,
                              lastError := AttemptFailed(fault),
                              lastErrorAt := Some(now));
      if outbox[i].attempts >= MAX_ATTEMPTS {
        outbox := outbox[i := outbox[i].(status := Exhausted)];
        transport := transport.(degraded := true);
        counters := counters.(exhausted := counters.exhausted + 1);
      } else {
        outbox := outbox[i := outbox[i].(nextAttemptAt := now + Backoff(outbox[i].attempts))];
      }
      assert outbox[i].lastError.Some?;
      transport := transport.(degraded := transport.degraded || IsOutstanding());
    }

    /** Where the outbox holds a due event. */
    method IndexOf(event: Event, ghost attempts: nat) returns (i: nat)
      requires DueAs(outbox, event, attempts) && Ordered(outbox)
      ensures PendingAt(Mem().st, i) && outbox[i].event == event && outbox[i].attempts == attempts
    {
      ghost var at :| 0 <= at < |outbox| && outbox[at].event == event && outbox[at].status == Pending
          && outbox[at].attempts == attempts;
      i := 0;
      while outbox[i].event != event
        invariant i <= at && forall k | 0 <= k < i :: outbox[k].event != event
        decreases |outbox| - i
      {
        i := i + 1;
      }
    }

    /** The entries whose next attempt is due, in queue order. */
    method DueEntries(now: int) returns (due: seq<Entry>)
      requires Ordered(outbox)
      ensures due == Due(outbox, now) && AllDue(outbox, due)
    {
      due := [];
      for i := 0 to |outbox|
        invariant due == Due(outbox[..i], now)
      {
        assert outbox[..i + 1][..i] == outbox[..i];
        if outbox[i].status == Pending && outbox[i].nextAttemptAt <= now {
          due := due + [outbox[i]];
        }
      }
      assert outbox[..|outbox|] == outbox;
      DueAreDue(outbox, now);
    }

    /** An event whose attempts are used up is set aside. */
    method SetAside(i: nat)
      requires Valid() && armed.None? && PendingAt(Mem().st, i) && outbox[i].attempts >= MAX_ATTEMPTS
      modifies this`outbox, this`transport, this`counters, this`file, this`durable
      ensures Valid()
      ensures Run(source, old(View()), [Exhaust(i), AlertRuns.Save]) == Some(View())
      ensures OthersStayDue(old(outbox), outbox, old(outbox[i].event.sequence))
    {
      hide SysInv;
      UpdateKeepsOthers(outbox, i, outbox[i].(status := Exhausted));
      StepKeepsInv(source, View(), Exhaust(i));
      RunTwo(source, View(), Exhaust(i), AlertRuns.Save);
      outbox := outbox[i := outbox[i].(status := Exhausted)];
      transport := transport.(degraded := true);
      counters := counters.(exhausted := counters.exhausted + 1);
      Commit();
    }

    /** Count the attempt and save it before any network effect. */
    method CountAttempt(i: nat)
      requires Valid() && armed.None? && PendingAt(Mem().st, i) && outbox[i].attempts < MAX_ATTEMPTS
      modifies this`outbox, this`file, this`durable, this`armed
      ensures Valid() && View() == Effect(source, old(View()), Arm(i))
    {
      hide SysInv, ValidState;
      StepKeepsInv(source, View(), Arm(i));
      ValidMem(source, Effect(source, View(), Arm(i)));
      DigestHolds(i);
      assert outbox[i].digest.None? || outbox[i].digest == Some(outbox[i].event);  // no event_identity_conflict
      outbox := outbox[i := outbox[i].(attempts := outbox[i].attempts + 1, digest := Some(outbox[i].event))];
      var ok := Save();
      armed := Some(i);
    }

    /** The request leaves; any reply may come back, at any time. */
    method Exchange(i: nat) returns (ghost reply: Reply, ghost now: int)
      requires Valid() && armed == Some(i) && PendingAt(Mem().st, i)
      modifies this`outbox, this`history, this`trail, this`transport, this`counters, this`armed, this`sent
      ensures Valid() && Step(source, old(View()), AlertRuns.Send(reply, now)) == Some(View())
    {
      hide SysInv, Answered;
      var answer: Reply := *;
      var at: int := *;
      StepKeepsInv(source, View(), AlertRuns.Send(answer, at));
      DigestHolds(i);
      assert outbox[i].runId.None?;                                                // no run_identity_conflict
      sent := sent + [outbox[i].event];
      armed := None;
      Answer(i, answer, at);
      reply, now := answer, at;
    }

    method Attempt(i: nat) returns (ghost reply: Reply, ghost now: int)
      requires Valid() && armed.None? && PendingAt(Mem().st, i) && outbox[i].attempts < MAX_ATTEMPTS
      modifies this
      ensures Valid() && armed.None?
      ensures OthersStayDue(old(outbox), outbox, old(outbox[i].event.sequence))
      ensures Run(source, old(View()), [Arm(i), AlertRuns.Send(reply, now), AlertRuns.Save]) == Some(View())
      ensures sent == old(sent) + [old(outbox)[i].event]
    {
      hide SysInv, Answered, Counted;
      ghost var before := View();
      CountAttempt(i);
      CountedStaysPending(before.mem, i);
      ghost var counted := Mem();
      reply, now := Exchange(i);
      AnswerKeepsOthers(counted, i, reply, now);
      Commit();
      RunThree(source, before, Arm(i), AlertRuns.Send(reply, now), AlertRuns.Save);
    }

    /** The capability file cannot be read: nothing is attempted. */
    method LoseCapability(now: int)
      requires Valid() && armed.None?
      modifies this`transport
      ensures Valid() && Enabled(old(View()), LoseRoute(now)) && View() == Effect(source, old(View()), LoseRoute(now))
    {
      hide SysInv;
      StepKeepsInv(source, View(), LoseRoute(now));
      transport := transport.(degraded := true, lastError := CapabilityUnavailable, lastErrorAt := Some(now));
    }

    /** `deliver`: of the entries due at `now`, in queue order, those handled are attempted once each, or
        set aside when their attempts are used up, until none is left, the limit is reached or the time
        is; `timeLeft` is what the clock says before each. */
    method Deliver(routed: bool, now: int, limit: nat, timeLeft: nat -> bool)
      returns (attempted: nat, ghost handled: nat, ghost trace: seq<Action>)
      requires Valid() && armed.None?
      modifies this
      ensures Valid() && armed.None?
      ensures Run(source, old(View()), trace) == Some(View())
      ensures forall a | a in trace :: !a.Rearm? && !a.Sample?
      ensures handled <= |Due(old(outbox), now)| && sent == old(sent) + Attemptable(Due(old(outbox), now)[..handled])
      ensures attempted == |Attemptable(Due(old(outbox), now)[..handled])| <= limit
      ensures routed ==> handled == |Due(old(outbox), now)| || attempted == limit || !timeLeft(handled)
      ensures old(sent) <= sent
      ensures forall e | e in old(outbox) && e.event in sent[|old(sent)|..] ::
                IsDue(e, now) && e.attempts < MAX_ATTEMPTS
      ensures routed && attempted < limit && (forall k :: timeLeft(k)) ==>
                forall e | e in old(outbox) && IsDue(e, now) && e.attempts < MAX_ATTEMPTS ::
                  e.event in sent[|old(sent)|..]
    {
      hide SysInv, Effect, Enabled, ValidState, QueueInv, Due, AllDue;
      ghost var start := View();
      attempted, handled, trace := 0, 0, [];
      QueueIsOrdered();
      var due := DueEntries(now);
      assert due[..0] == [] && due[0..] == due;
      assert Attemptable(due[..0]) == [] && start.sent + [] == start.sent;
      ghost var before := outbox;
      if due == [] {
        DeliveryTells(before, now, 0, start.sent, sent);
        return;
      }
      if !routed {
        LoseCapability(now);
        trace := [LoseRoute(now)];
        assert [] + [LoseRoute(now)] == [LoseRoute(now)];
        RunAppend(source, start, [], LoseRoute(now));
        DeliveryTells(before, now, 0, start.sent, sent);
        return;
      }
      var k := 0;
      while k < |due| && attempted < limit && timeLeft(k)
        invariant k <= |due| && Valid() && armed.None?
        invariant Run(source, start, trace) == Some(View())
        invariant forall a | a in trace :: !a.Rearm? && !a.Sample?
        invariant attempted == |Attemptable(due[..k])| <= limit && sent == start.sent + Attemptable(due[..k])
        invariant AllDue(outbox, due[k..])
      {
        ghost var prior := trace;
        var tried, round := DeliverOne(due[k], due, k);
        trace := prior + round;
        RunConcat(source, start, prior, round);
        AttemptableNext(due, k);
        attempted := if tried then attempted + 1 else attempted;
        k := k + 1;
      }
      handled := k;
      DeliveryTells(before, now, k, start.sent, sent);
    }

    /** One due entry: set aside, or attempted. */
    method DeliverOne(entry: Entry, ghost due: seq<Entry>, ghost k: nat) returns (tried: bool, ghost round: seq<Action>)
      requires Valid() && armed.None? && k < |due| && due[k] == entry && AllDue(outbox, due[k..])
      modifies this
      ensures Valid() && armed.None? && AllDue(outbox, due[k + 1..])
      ensures Run(source, old(View()), round) == Some(View())
      ensures forall a | a in round :: !a.Rearm? && !a.Sample?
      ensures tried == (entry.attempts < MAX_ATTEMPTS) && sent == old(sent) + if tried then [entry.event] else []
    {
      hide SysInv, Effect, Enabled, ValidState, QueueInv, Run;
      QueueIsOrdered();
      assert due[k..][0] == entry;
      ghost var before := outbox;
      var i := IndexOf(entry.event, entry.attempts);
      tried := outbox[i].attempts < MAX_ATTEMPTS;
      if tried {
        ghost var reply, at := Attempt(i);
        round := [Arm(i), AlertRuns.Send(reply, at), AlertRuns.Save];
      } else {
        SetAside(i);
        round := [Exhaust(i), AlertRuns.Save];
      }
      NextDue(before, outbox, due, k);
    }

    /** The sender's command: load, retry what is exhausted if asked to, save, deliver, save.  Every event that
        was exhausted on disk is sent again, as long as the limit and the time last. */
    method RunDeliver(redrive: bool, at: int, routed: bool, now: int, limit: nat, timeLeft: nat -> bool)
      returns (redriven: nat, attempted: nat)
      requires Valid() && at <= now
      modifies this
      ensures Valid() && file == Mem().st && old(sent) <= sent
      ensures redriven == if redrive then Count(old(file).outbox, OfStatus(Exhausted)) else 0
      ensures redrive && routed && attempted < limit && (forall k :: timeLeft(k)) ==>
                forall e | e in old(file).outbox && e.status == Exhausted :: e.event in sent[|old(sent)|..]
    {
      hide SysInv, AlertRuns.Run, IsDue, Rearmed, RearmedAll, ValidState, QueueInv;
      Load();
      ghost var loaded := outbox;
      redriven := 0;
      if redrive {
        redriven := Redrive(at);
      }
      Commit();
      ghost var waiting := outbox;
      ghost var handled, trace;
      attempted, handled, trace := Deliver(routed, now, limit, timeLeft);
      Commit();
      if redrive {
        RetriedAreDue(loaded, waiting, at, now);
      }
    }

    lemma QueueIsOrdered()
      requires SysInv(source, View())
      ensures Ordered(outbox)
    {
    }

    lemma DigestHolds(i: nat)
      requires SysInv(source, View()) && PendingAt(Mem().st, i)
      ensures outbox[i].digest == Some(outbox[i].event) && outbox[i].runId.None? && Ordered(outbox)
    {
      assert QueuedEntry(outbox[i], sequence);
    }
  }

  lemma Reloads(source: string, s: Sys)
    requires SysInv(source, s)
    ensures Enabled(s, Reload) && Effect(source, s, Reload) == s.(mem := s.disk, armed := None)
            && SysInv(source, Effect(source, s, Reload))
  {
    hide SysInv;
    StepKeepsInv(source, s, Reload);
  }

  lemma Rearms(source: string, s: Sys, now: int)
    requires SysInv(source, s) && s.armed.None?
    ensures Enabled(s, Rearm(now)) && SysInv(source, Effect(source, s, Rearm(now)))
    ensures Effect(source, s, Rearm(now))
            == s.(mem := s.mem.(st := s.mem.st.(outbox := RearmedAll(s.mem.st.outbox, now))))
  {
    hide SysInv;
    StepKeepsInv(source, s, Rearm(now));
  }

  lemma RearmedIsAll(was: seq<Entry>, now: seq<Entry>, at: int)
    requires |now| == |was| && forall k | 0 <= k < |was| :: now[k] == Rearmed(was[k], at)
    ensures now == RearmedAll(was, at)
  {
  }

  /** What was exhausted is due once it is retried. */
  lemma RetriedAreDue(was: seq<Entry>, outbox: seq<Entry>, at: int, now: int)
    requires |outbox| == |was| && at <= now && forall k | 0 <= k < |was| :: Retried(was[k], outbox[k], at)
    ensures forall e | e in was && e.status == Exhausted ::
              exists f :: f in outbox && f.event == e.event && IsDue(f, now) && f.attempts < MAX_ATTEMPTS
  {
    forall e | e in was && e.status == Exhausted
      ensures exists f :: f in outbox && f.event == e.event && IsDue(f, now) && f.attempts < MAX_ATTEMPTS
    {
      var k :| 0 <= k < |was| && was[k] == e;
      assert Retried(was[k], outbox[k], at);
      assert outbox[k] in outbox && IsDue(outbox[k], now);
    }
  }

  lemma CountNone(es: seq<Entry>, q: Query)
    ensures Count(es[..0], q) == 0
  {
  }

  lemma CountNext(es: seq<Entry>, i: nat, q: Query)
    requires i < |es|
    ensures Count(es[..i + 1], q) == Count(es[..i], q) + Hit(es[i], q)
  {
    assert es[..i + 1] == es[..i] + [es[i]];
    CountAppend(es[..i], es[i], q);
  }

  lemma RearmedRetries(was: seq<Entry>, now: seq<Entry>, at: int)
    requires |now| == |was| && forall k | 0 <= k < |was| :: now[k] == Rearmed(was[k], at)
    ensures forall k | 0 <= k < |now| :: Retried(was[k], now[k], at)
  {
  }

  lemma CountedStaysPending(l: Ledger, i: nat)
    requires PendingAt(l.st, i)
    ensures PendingAt(Counted(l, i).st, i)
    ensures Counted(l, i).st.outbox[i].event == l.st.outbox[i].event
    ensures OthersStayDue(l.st.outbox, Counted(l, i).st.outbox, l.st.outbox[i].event.sequence)
  {
    UpdateKeepsOthers(l.st.outbox, i, Counted(l, i).st.outbox[i]);
  }

  /** Handling one event leaves every other due event due, with its attempts. */
  ghost predicate OthersStayDue(before: seq<Entry>, after: seq<Entry>, number: nat) {
    forall e: Event, n: nat | e.sequence != number && DueAs(before, e, n) :: DueAs(after, e, n)
  }

  lemma UpdateKeepsOthers(outbox: seq<Entry>, i: nat, x: Entry)
    requires i < |outbox| && x.event == outbox[i].event
    ensures OthersStayDue(outbox, outbox[i := x], outbox[i].event.sequence)
  {
    var after := outbox[i := x];
    forall e: Event, n: nat | e.sequence != outbox[i].event.sequence && DueAs(outbox, e, n)
      ensures DueAs(after, e, n)
    {
      var k :| 0 <= k < |outbox| && outbox[k].event == e && outbox[k].status == Pending && outbox[k].attempts == n;
      assert after[k] == outbox[k];
    }
  }

  lemma RemoveKeepsOthers(outbox: seq<Entry>, i: nat)
    requires i < |outbox|
    ensures OthersStayDue(outbox, Remove(outbox, i), outbox[i].event.sequence)
  {
    var after := Remove(outbox, i);
    forall e: Event, n: nat | e.sequence != outbox[i].event.sequence && DueAs(outbox, e, n)
      ensures DueAs(after, e, n)
    {
      var k :| 0 <= k < |outbox| && outbox[k].event == e && outbox[k].status == Pending && outbox[k].attempts == n;
      assert after[if k < i then k else k - 1] == outbox[k];
    }
  }

  lemma AnswerKeepsOthers(l: Ledger, i: nat, reply: Reply, now: int)
    requires i < |l.st.outbox|
    ensures OthersStayDue(l.st.outbox, Answered(l, i, reply, now).st.outbox, l.st.outbox[i].event.sequence)
  {
    var after := Answered(l, i, reply, now).st.outbox;
    if after == Remove(l.st.outbox, i) {
      RemoveKeepsOthers(l.st.outbox, i);
    } else {
      UpdateKeepsOthers(l.st.outbox, i, after[i]);
    }
  }

  lemma ValidMem(source: string, s: Sys)
    requires SysInv(source, s)
    ensures ValidState(s.mem.st)
  {
    SignalsInvWf(s.mem);
    ReachedStatesAreValid(s.mem);
  }

  ghost predicate DueAs(outbox: seq<Entry>, event: Event, attempts: nat) {
    exists i :: 0 <= i < |outbox| && outbox[i].event == event && outbox[i].status == Pending
        && outbox[i].attempts == attempts
  }

  /** The entry waits for an attempt, and its time has come. */
  predicate IsDue(e: Entry, now: int) {
    e.status == Pending && e.nextAttemptAt <= now
  }

  /** An exhausted event gets all its attempts back, the first of them now; any other entry is as it was. */
  predicate Retried(before: Entry, after: Entry, now: int) {
    if before.status != Exhausted then after == before
    else
      && after.event == before.event && after.digest == before.digest && after.lastError == before.lastError
      && after.runId == before.runId
      && after.status == Pending && after.attempts == 0 && after.nextAttemptAt == now
  }

  /** The entries due, in queue order. */
  function Due(outbox: seq<Entry>, now: int): seq<Entry> {
    if outbox == [] then []
    else
      var last := outbox[|outbox| - 1];
      Due(outbox[..|outbox| - 1], now) + if last.status == Pending && last.nextAttemptAt <= now then [last] else []
  }

  /** The events of the entries that may still be attempted. */
  function Attemptable(due: seq<Entry>): seq<Event> {
    if due == [] then []
    else
      var last := due[|due| - 1];
      Attemptable(due[..|due| - 1]) + if last.attempts < MAX_ATTEMPTS then [last.event] else []
  }

  lemma {:induction false} AttemptableAre(due: seq<Entry>, event: Event)
    ensures event in Attemptable(due) <==> exists e :: e in due && e.event == event && e.attempts < MAX_ATTEMPTS
  {
    if due != [] {
      var init, last := due[..|due| - 1], due[|due| - 1];
      AttemptableAre(init, event);
      assert due == init + [last];
    }
  }

  lemma {:induction false} DueAre(outbox: seq<Entry>, now: int, e: Entry)
    ensures e in Due(outbox, now) <==> e in outbox && IsDue(e, now)
  {
    if outbox != [] {
      var init, last := outbox[..|outbox| - 1], outbox[|outbox| - 1];
      DueAre(init, now, e);
      assert outbox == init + [last];
    }
  }

  /** What was sent for the first of the due entries, in terms of the outbox alone. */
  lemma DeliveryTells(outbox: seq<Entry>, now: int, handled: nat, before: seq<Event>, after: seq<Event>)
    requires Ordered(outbox) && handled <= |Due(outbox, now)|
    requires after == before + Attemptable(Due(outbox, now)[..handled])
    ensures forall e | e in outbox && e.event in after[|before|..] :: IsDue(e, now) && e.attempts < MAX_ATTEMPTS
    ensures handled == |Due(outbox, now)| ==>
              forall e | e in outbox && IsDue(e, now) && e.attempts < MAX_ATTEMPTS :: e.event in after[|before|..]
  {
    hide Due, Attemptable, IsDue;
    var due := Due(outbox, now);
    var first := due[..handled];
    assert after[|before|..] == Attemptable(first);
    forall e | e in outbox && e.event in after[|before|..]
      ensures IsDue(e, now) && e.attempts < MAX_ATTEMPTS
    {
      AttemptableAre(first, e.event);
      var f :| f in first && f.event == e.event && f.attempts < MAX_ATTEMPTS;
      assert f in due;
      DueAre(outbox, now, f);
    }
    if handled == |due| {
      assert first == due;
      forall e | e in outbox && IsDue(e, now) && e.attempts < MAX_ATTEMPTS
        ensures e.event in after[|before|..]
      {
        DueAre(outbox, now, e);
        AttemptableAre(due, e.event);
      }
    }
  }

  lemma AttemptableNext(due: seq<Entry>, k: nat)
    requires k < |due|
    ensures Attemptable(due[..k + 1]) == Attemptable(due[..k]) + if due[k].attempts < MAX_ATTEMPTS then [due[k].event]
            else []
  {
    assert due[..k + 1][..k] == due[..k];
  }

  /** Entries as the outbox still holds them, with increasing numbers. */
  ghost predicate AllDue(outbox: seq<Entry>, due: seq<Entry>) {
    && (forall k | 0 <= k < |due| :: DueAs(outbox, due[k].event, due[k].attempts))
    && (forall j, k | 0 <= j < k < |due| :: due[j].event.sequence < due[k].event.sequence)
  }

  lemma {:induction false} DueAreHeld(outbox: seq<Entry>, now: int)
    ensures forall k | 0 <= k < |Due(outbox, now)| ::
              Due(outbox, now)[k] in outbox && Due(outbox, now)[k].status == Pending
  {
    if outbox != [] {
      DueAreHeld(outbox[..|outbox| - 1], now);
    }
  }

  lemma {:induction false} DueAreOrdered(outbox: seq<Entry>, now: int)
    requires Ordered(outbox)
    ensures var due := Due(outbox, now); forall j, k | 0 <= j < k < |due| ::
              due[j].event.sequence < due[k].event.sequence
  {
    if outbox != [] {
      var init, last := outbox[..|outbox| - 1], outbox[|outbox| - 1];
      DueAreOrdered(init, now);
      DueAreHeld(init, now);
      assert Due(outbox, now) == Due(init, now) || Due(outbox, now) == Due(init, now) + [last];
      forall j | 0 <= j < |Due(init, now)|
        ensures Due(init, now)[j].event.sequence < last.event.sequence
      {
        var i :| 0 <= i < |init| && init[i] == Due(init, now)[j];
        assert outbox[i].event.sequence < outbox[|outbox| - 1].event.sequence;
      }
      hide Due;
    }
  }

  lemma DueAreDue(outbox: seq<Entry>, now: int)
    requires Ordered(outbox)
    ensures AllDue(outbox, Due(outbox, now))
  {
    DueAreHeld(outbox, now);
    DueAreOrdered(outbox, now);
    var due := Due(outbox, now);
    forall k | 0 <= k < |due|
      ensures DueAs(outbox, due[k].event, due[k].attempts)
    {
      var i :| 0 <= i < |outbox| && outbox[i] == due[k];
    }
  }

  lemma NextDue(before: seq<Entry>, after: seq<Entry>, due: seq<Entry>, k: nat)
    requires k < |due| && AllDue(before, due[k..]) && OthersStayDue(before, after, due[k].event.sequence)
    ensures AllDue(after, due[k + 1..])
  {
    var rest, next := due[k..], due[k + 1..];
    assert rest[0] == due[k];
    forall j | 0 <= j < |next|
      ensures DueAs(after, next[j].event, next[j].attempts)
    {
      assert next[j] == rest[j + 1] && DueAs(before, rest[j + 1].event, rest[j + 1].attempts);
      assert rest[0].event.sequence < rest[j + 1].event.sequence;
    }
    forall i, j | 0 <= i < j < |next|
      ensures next[i].event.sequence < next[j].event.sequence
    {
      assert rest[i + 1].event.sequence < rest[j + 1].event.sequence;
    }
  }

  lemma RunConcat(source: string, s: Sys, a: seq<Action>, b: seq<Action>)
    ensures Run(source, s, a + b) == match Run(source, s, a) case None => None case Some(t) => Run(source, t, b)
  {
    if b == [] {
      assert a + b == a;
    } else {
      assert (a + b)[..|a + b| - 1] == a + b[..|b| - 1];
      RunConcat(source, s, a, b[..|b| - 1]);
    }
  }

  lemma RunTwo(source: string, s: Sys, a: Action, b: Action)
    ensures Run(source, s, [a, b]) == match Step(source, s, a) case None => None case Some(t) => Step(source, t, b)
  {
    hide Step;
    RunAppend(source, s, [], a);
    RunAppend(source, s, [a], b);
    assert [] + [a] == [a] && [a] + [b] == [a, b];
  }

  lemma RunThree(source: string, s: Sys, a: Action, b: Action, c: Action)
    ensures Run(source, s, [a, b, c]) ==
            match Step(source, s, a) case None => None case Some(t) =>
            match Step(source, t, b) case None => None case Some(u) => Step(source, u, c)
  {
    hide Step, Run;
    RunTwo(source, s, a, b);
    RunAppend(source, s, [a, b], c);
    assert [a, b] + [c] == [a, b, c];
  }
}
