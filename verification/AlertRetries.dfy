/** When a failed event is sent again. */
module AlertRetries {
  import opened HealthEvents
  import opened AlertLedger
  import opened AlertQueue
  import opened AlertRuns

  /** Seconds to wait after the first, second, ... failed attempt: 60 doubled each time, never above an hour. */
  const DELAYS: seq<int> := [60, 120, 240, 480, 960]

  lemma DelaysAreCounted(attempts: nat)
    requires 1 <= attempts < MAX_ATTEMPTS
    ensures Backoff(attempts) == DELAYS[attempts - 1]
  {
    assert Pow2(0) == 1 && Pow2(1) == 2 && Pow2(2) == 4;
    assert Pow2(3) == 2 * Pow2(2) && Pow2(4) == 2 * Pow2(3);
  }

  /** The reply settles the attempt. */
  predicate Settles(reply: Reply) {
    reply.Terminal? && (reply.status == Accepted || reply.status == Skipped || reply.status == Duplicate)
  }

  /** The fault is noted with the entry and the transport; an entry out of attempts is counted. */
  predicate FailureNoted(before: State, after: State, i: nat, reply: Reply, now: int)
    requires i < |before.outbox| && i < |after.outbox|
  {
    var fault := if reply.Faulted? then reply.fault else InvalidResponse;
    && after.outbox[i].lastError == Some(fault)
    && after.transport == Transport(true, before.transport.consecutiveFailures + 1, AttemptFailed(fault), Some(now))
    && after.counters == before.counters.(exhausted :=
         before.counters.exhausted + (if before.outbox[i].attempts >= 6 then 1 else 0))
  }

  /** What one failed attempt leaves of the outbox. */
  lemma FailedEntry(l: Ledger, i: nat, reply: Reply, now: int)
    requires i < |l.st.outbox| && !Settles(reply) && 1 <= l.st.outbox[i].attempts
    ensures var e, st := l.st.outbox[i], Answered(l, i, reply, now).st;
            && |st.outbox| == |l.st.outbox| && st.history == l.st.history && st.transport.degraded
            && (forall k | 0 <= k < |st.outbox| && k != i :: st.outbox[k] == l.st.outbox[k])
            && st.outbox[i].event == e.event && st.outbox[i].attempts == e.attempts && st.outbox[i].lastError.Some?
            && (if e.attempts < MAX_ATTEMPTS
                then st.outbox[i].status == e.status && st.outbox[i].nextAttemptAt == now + DELAYS[e.attempts - 1]
                else st.outbox[i].status == Exhausted)
            && FailureNoted(l.st, st, i, reply, now)
  {
    if l.st.outbox[i].attempts < MAX_ATTEMPTS {
      DelaysAreCounted(l.st.outbox[i].attempts);
    }
  }

  /** Over all runs: after its n-th failed attempt, n from 1 to 5, an event is pending again and due in 60, 120,
      240, 480 or 960 seconds; after the sixth it is exhausted.  Nothing else in the outbox changes. */
  lemma FailedAttemptWaits(source: string, s: Sys, reply: Reply, now: int)
    requires Reachable(source, s) && Enabled(s, Send(reply, now)) && !Settles(reply)
    ensures var i, before, after := s.armed.value, s.mem.st.outbox, Effect(source, s, Send(reply, now)).mem.st.outbox;
            && |after| == |before| && (forall k | 0 <= k < |after| && k != i :: after[k] == before[k])
            && after[i].event == before[i].event && after[i].attempts == before[i].attempts && after[i].lastError.Some?
            && 1 <= before[i].attempts <= MAX_ATTEMPTS
            && (before[i].attempts < MAX_ATTEMPTS ==>
                  after[i].status == Pending && after[i].nextAttemptAt == now + DELAYS[before[i].attempts - 1])
            && (before[i].attempts == MAX_ATTEMPTS ==> after[i].status == Exhausted)
            && FailureNoted(s.mem.st, Effect(source, s, Send(reply, now)).mem.st, i, reply, now)
  {
    ReachableInv(source, s);
    var i := s.armed.value;
    assert QueuedEntry(s.mem.st.outbox[i], s.mem.st.sequence);
    hide SysInv, Answered;
    FailedEntry(s.mem, i, reply, now);
  }
}
