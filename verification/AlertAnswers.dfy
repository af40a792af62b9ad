/** What one sample and one answer make of the queue, told on the state before and after. */
module AlertAnswers {
  import opened HealthEvents
  import opened AlertLedger
  import opened AlertRuns

  // ---- a sample --------------------------------------------------------------------------------

  /** One announcement: numbered, reporting what was dropped before it, and due at once; or dropped, and the
      transport marked, when 64 entries are held. */
  predicate Announces(before: State, after: State, c: Call, source: string, now: int) {
    if |before.outbox| < 64 then
      && c.event.Some? && c.event.value.source == source && c.event.value.occurredAt == now
      && c.event.value.sequence == before.sequence + 1 && c.event.value.droppedEvents == before.counters.dropped
      && after.sequence == before.sequence + 1
      && after.outbox == before.outbox + [Entry(c.event.value, Some(c.event.value), Pending, 0, now, None, None)]
      && after.counters == before.counters && after.transport == before.transport
    else
      && c.event.None? && after.sequence == before.sequence && after.outbox == before.outbox
      && after.counters == before.counters.(dropped := before.counters.dropped + 1)
      && after.transport == Transport(true, before.transport.consecutiveFailures, OutboxCapacity, Some(now))
  }

  /** A sample announces once or not at all; without an announcement the queue is as before. */
  lemma SampleIsQueued(source: string, s: Sys, key: Key, ok: bool, now: int, errors: string)
    requires Enabled(s, Sample(key, ok, now, errors))
    ensures var before, t := s.mem, Effect(source, s, Sample(key, ok, now, errors)).mem;
            && t.st.history == before.st.history && t.st.invocations == before.st.invocations
            && if t.calls == before.calls then
                 t.st.outbox == before.st.outbox && t.st.sequence == before.st.sequence
                 && t.st.counters == before.st.counters && t.st.transport == before.st.transport
               else
                 exists c :: t.calls == before.calls + [c] && Announces(before.st, t.st, c, source, now)
  {
    var t := Effect(source, s, Sample(key, ok, now, errors)).mem;
    if t.calls != s.mem.calls {
      assert t.calls == s.mem.calls + [t.calls[|t.calls| - 1]];
      assert Announces(s.mem.st, t.st, t.calls[|t.calls| - 1], source, now);
    }
  }

  // ---- an answer -------------------------------------------------------------------------------

  /** What no unrelated delivery settles: a skipped, unconfirmed or dropped event, and an entry exhausted or
      in error. */
  predicate Owing(st: State) {
    || st.counters.skipped > 0 || st.counters.dropped > 0 || st.counters.unconfirmed > 0
    || exists e :: e in st.outbox && (e.status == Exhausted || e.lastError.Some?)
  }

  /** What the transport remembers of a terminal answer. */
  function Remark(status: Status): TransportError {
    match status
    case Duplicate => AdmissionUnconfirmed
    case Skipped => AdmissionSkipped
    case _ => Clean
  }

  /** The oldest accepted entry, if there is one. */
  predicate IsOldestAccepted(all: seq<Entry>, k: int) {
    0 <= k < |all| && all[k].status == Accepted && forall n | 0 <= n < k :: all[n].status != Accepted
  }

  /** A settled entry moves to the history of 32; when that is full the oldest accepted entry goes, and when
      nothing in it may go, the settled entry stays where it was. */
  ghost predicate Moves(before: State, after: State, i: nat, entry: Entry)
    requires i < |before.outbox|
  {
    var all := before.history + [entry];
    if |before.history| < 32 then
      after.outbox == before.outbox[..i] + before.outbox[i + 1..] && after.history == all
    else if exists k :: IsOldestAccepted(all, k) then
      && after.outbox == before.outbox[..i] + before.outbox[i + 1..]
      && (forall k | IsOldestAccepted(all, k) :: after.history == all[..k] + all[k + 1..])
    else
      after.outbox == before.outbox[i := entry] && after.history == before.history
  }

  /** Over all runs: a terminal answer settles the entry with its run and moves it to the history; a skipped or
      unconfirmed admission is counted; the transport is healthy again exactly when the answer was an
      acceptance and nothing is owing. */
  lemma AnswerSettles(source: string, s: Sys, reply: Reply, now: int)
    requires Reachable(source, s) && Enabled(s, Send(reply, now))
    requires reply.Terminal? && (reply.status == Accepted || reply.status == Skipped || reply.status == Duplicate)
    ensures var i, b, a := s.armed.value, s.mem.st, Effect(source, s, Send(reply, now)).mem.st;
            && Moves(b, a, i, b.outbox[i].(status := reply.status, runId := Some(reply.run), lastError := None))
            && a.counters == b.counters.(
                 skipped := b.counters.skipped + (if reply.status == Skipped then 1 else 0),
                 unconfirmed := b.counters.unconfirmed + (if reply.status == Duplicate then 1 else 0))
            && a.transport == Transport(
                 reply.status != Accepted || Owing(a), 0,
                 Remark(reply.status), b.transport.lastErrorAt)
            && a.sequence == b.sequence && a.signals == b.signals && a.invocations == b.invocations
  {
    hide Reachable, Retired, Settle, Moves, Owing, Remark;
    HistoryIsBounded(source, s);
    RetiringMoves(s.mem, s.armed.value, reply);
    SettlingTells(Retired(s.mem, s.armed.value, reply), reply);
    MovesSeesTables(s.mem.st, s.armed.value);
  }

  lemma HistoryIsBounded(source: string, s: Sys)
    requires Reachable(source, s)
    ensures |s.mem.st.history| <= 32
  {
    ReachableInv(source, s);
  }

  /** Only outbox and history matter for the move. */
  lemma MovesSeesTables(before: State, i: nat)
    requires i < |before.outbox|
    ensures forall a: State, b: State, entry | a.outbox == b.outbox && a.history == b.history ::
              Moves(before, a, i, entry) ==> Moves(before, b, i, entry)
  {
  }

  lemma RetiringMoves(l: Ledger, i: nat, reply: Reply)
    requires i < |l.st.outbox| && reply.Terminal? && |l.st.history| <= 32
    ensures var entry := l.st.outbox[i].(status := reply.status, runId := Some(reply.run), lastError := None);
            var m := Retired(l, i, reply);
            && Moves(l.st, m.st, i, entry) && m.st.sequence == l.st.sequence && m.st.signals == l.st.signals
            && m.st.invocations == l.st.invocations && m.st.transport == l.st.transport
            && m.st.counters == l.st.counters
  {
    var all := l.st.history + [Resolved(l.st.outbox[i], reply)];
    if |all| > 32 {
      TrimmedOnce(all);
    }
    hide Trimmed;
  }

  /** One entry too many: the oldest accepted one goes, if there is one. */
  lemma TrimmedOnce(all: seq<Entry>)
    requires |all| == 33
    ensures if exists k :: IsOldestAccepted(all, k) then
              forall k | IsOldestAccepted(all, k) :: Trimmed(all).0 == all[..k] + all[k + 1..]
            else Trimmed(all).0 == all
  {
    FirstIsOldest(all);
    if FirstAccepted(all).Some? {
      var k := FirstAccepted(all).value;
      var rest := Remove(all, k);
      assert |rest| == 32 && Trimmed(rest) == (rest, []);
      assert Trimmed(all).0 == rest && IsOldestAccepted(all, k);
    }
  }

  lemma FirstIsOldest(all: seq<Entry>)
    ensures match FirstAccepted(all)
            case None => forall k :: !IsOldestAccepted(all, k)
            case Some(n) => forall k :: IsOldestAccepted(all, k) <==> k == n
  {
    if all != [] && all[0].status != Accepted {
      FirstIsOldest(all[1..]);
      forall k
        ensures IsOldestAccepted(all, k) <==> IsOldestAccepted(all[1..], k - 1)
      {
        if IsOldestAccepted(all[1..], k - 1) {
          forall n | 0 <= n < k
            ensures all[n].status != Accepted
          {
            assert n > 0 ==> all[n] == all[1..][n - 1];
          }
        }
        if IsOldestAccepted(all, k) {
          forall n | 0 <= n < k - 1
            ensures all[1..][n].status != Accepted
          {
            assert all[1..][n] == all[n + 1];
          }
        }
      }
    }
  }

  lemma SettlingTells(l: Ledger, reply: Reply)
    requires IsTerminal(reply)
    ensures var b, a := l.st, Settle(l, reply.status, reply).st;
            && a.outbox == b.outbox && a.history == b.history && a.sequence == b.sequence && a.signals == b.signals
            && a.invocations == b.invocations
            && a.counters == b.counters.(
                 skipped := b.counters.skipped + (if reply.status == Skipped then 1 else 0),
                 unconfirmed := b.counters.unconfirmed + (if reply.status == Duplicate then 1 else 0))
            && a.transport == Transport(
                 reply.status != Accepted || Owing(a), 0,
                 Remark(reply.status), b.transport.lastErrorAt)
  {
    OutstandingIsOwing(l.st);
    OutstandingIsOwing(Settle(l, reply.status, reply).st);
    hide Outstanding, Owing;
  }

  lemma OutstandingIsOwing(st: State)
    ensures Outstanding(st) <==> Owing(st)
  {
    if i :| 0 <= i < |st.outbox| && (st.outbox[i].status == Exhausted || st.outbox[i].lastError.Some?) {
      assert st.outbox[i] in st.outbox;
    }
  }
}
