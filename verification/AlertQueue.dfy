/** Conservation, counters and capacity of the alert queue, over every step of the state. */
module AlertQueue {
  import opened HealthEvents
  import opened AlertLedger

  // ---- counting entries ------------------------------------------------------------------------

  /** Two ways to pick entries out of a list. */
  datatype Query = OfEvent(event: Event) | OfStatus(status: Status)

  function Hit(e: Entry, q: Query): nat {
    match q
    case OfEvent(event) => if e.event == event then 1 else 0
    case OfStatus(status) => if e.status == status then 1 else 0
  }

  function Count(es: seq<Entry>, q: Query): nat {
    if es == [] then 0 else Count(es[..|es| - 1], q) + Hit(es[|es| - 1], q)
  }

  lemma CountConcat(a: seq<Entry>, b: seq<Entry>, q: Query)
    ensures Count(a + b, q) == Count(a, q) + Count(b, q)
  {
    if b == [] {
      assert a + b == a;
    } else {
      assert (a + b)[..|a + b| - 1] == a + b[..|b| - 1];
    }
  }

  lemma CountAppend(a: seq<Entry>, e: Entry, q: Query)
    ensures Count(a + [e], q) == Count(a, q) + Hit(e, q)
  {
    assert (a + [e])[..|a|] == a;
  }

  lemma CountSplit(s: seq<Entry>, i: nat, q: Query)
    requires i < |s|
    ensures Count(s, q) == Count(Remove(s, i), q) + Hit(s[i], q)
  {
    assert s == s[..i] + [s[i]] + s[i + 1..];
    CountConcat(s[..i], s[i + 1..], q);
    CountConcat(s[..i] + [s[i]], s[i + 1..], q);
    CountAppend(s[..i], s[i], q);
  }

  lemma CountUpdate(s: seq<Entry>, i: nat, x: Entry, q: Query)
    requires i < |s|
    ensures Count(s[i := x], q) + Hit(s[i], q) == Count(s, q) + Hit(x, q)
  {
    assert Remove(s[i := x], i) == Remove(s, i);
    CountSplit(s[i := x], i, q);
    CountSplit(s, i, q);
  }

  lemma CountSame(a: seq<Entry>, b: seq<Entry>, q: Query)
    requires |a| == |b| && forall i | 0 <= i < |a| :: Hit(a[i], q) == Hit(b[i], q)
    ensures Count(a, q) == Count(b, q)
  {
    if a != [] {
      CountSame(a[..|a| - 1], b[..|b| - 1], q);
    }
  }

  // ---- numbered events -------------------------------------------------------------------------

  /** The events that `emit` numbered and queued, oldest first. */
  function Issued(calls: seq<Call>): seq<Event> {
    if calls == [] then []
    else Issued(calls[..|calls| - 1]) + Heard(calls[|calls| - 1])
  }

  function Heard(c: Call): seq<Event> {
    match c.event case None => [] case Some(e) => [e]
  }

  lemma IssuedAppend(calls: seq<Call>, c: Call)
    ensures Issued(calls + [c]) == Issued(calls) + Heard(c)
  {
    assert (calls + [c])[..|calls|] == calls;
  }

  // ---- the invariant ---------------------------------------------------------------------------

  /** How often an event is found in the outbox, the history and among the evicted entries. */
  function Places(l: Ledger, q: Query): nat {
    Count(l.st.outbox, q) + Count(l.st.history, q) + Count(l.evicted, q)
  }

  /** A numbered event has exactly one place; an event never numbered has none. */
  ghost predicate Placed(l: Ledger, e: Event) {
    Places(l, OfEvent(e)) == if e in Issued(l.calls) then 1 else 0
  }

  ghost predicate Conserved(l: Ledger) {
    forall e: Event :: Placed(l, e)
  }

  /** Events are numbered 1, 2, ... in the order of `emit`, and every call was numbered or dropped. */
  ghost predicate Numbered(l: Ledger) {
    && |Issued(l.calls)| == l.st.sequence
    && (forall i | 0 <= i < l.st.sequence :: Issued(l.calls)[i].sequence == i + 1)
    && |l.calls| == l.st.sequence + l.st.counters.dropped
  }

  /** The sticky counters count the unresolved entries still held. */
  predicate Tallied(st: State) {
    && st.counters.skipped == Count(st.outbox, OfStatus(Skipped)) + Count(st.history, OfStatus(Skipped))
    && st.counters.unconfirmed == Count(st.outbox, OfStatus(Duplicate)) + Count(st.history, OfStatus(Duplicate))
  }

  ghost predicate Ordered(outbox: seq<Entry>) {
    forall i, j | 0 <= i < j < |outbox| :: outbox[i].event.sequence < outbox[j].event.sequence
  }

  predicate Waiting(e: Entry) {
    e.status == Pending || e.status == Exhausted
  }

  predicate EntryInv(e: Entry) {
    && e.digest == Some(e.event)
    && e.attempts <= MAX_ATTEMPTS
    && (Waiting(e) ==> e.runId.None?)
  }

  predicate QueuedEntry(e: Entry, sequence: nat) {
    EntryInv(e) && e.event.sequence <= sequence
  }

  predicate RetiredEntry(e: Entry) {
    EntryInv(e) && !Waiting(e)
  }

  ghost predicate Shaped(st: State) {
    && Ordered(st.outbox)
    && (forall i | 0 <= i < |st.outbox| :: QueuedEntry(st.outbox[i], st.sequence))
    && (forall i | 0 <= i < |st.history| :: RetiredEntry(st.history[i]))
  }

  predicate Bounded(st: State) {
    && |st.outbox| <= OUTBOX_LIMIT
    && |st.history| <= HISTORY_LIMIT
    && |st.invocations| <= INVOCATION_LIMIT
    && |st.signals| <= SIGNAL_LIMIT
  }

  ghost predicate AcceptedOnly(es: seq<Entry>) {
    forall i | 0 <= i < |es| :: es[i].status == Accepted
  }

  /** Outstanding transport is never reported as healthy. */
  predicate Flagged(st: State) {
    Outstanding(st) ==> st.transport.degraded
  }

  ghost predicate QueueInv(l: Ledger) {
    && Conserved(l) && Numbered(l) && AcceptedOnly(l.evicted)
    && Tallied(l.st) && Shaped(l.st) && Bounded(l.st) && Flagged(l.st)
  }

  lemma EmptyQueue()
    ensures QueueInv(EMPTY_LEDGER)
  {
    forall e: Event
      ensures Placed(EMPTY_LEDGER, e)
    {
    }
  }

  // ---- emit and observe ------------------------------------------------------------------------

  /** A new number names a new event. */
  lemma FreshNumber(l: Ledger, e: Event)
    requires Numbered(l) && e.sequence == l.st.sequence + 1
    ensures e !in Issued(l.calls)
  {
  }

  lemma EmitBooks(l: Ledger, now: int, source: string, key: Key, kind: Kind, rec: SignalRecord, evidence: string,
                  id: nat)
    requires Conserved(l) && Numbered(l) && rec.episodeId.Some?
    ensures var m := Emit(l, now, source, key, kind, rec, evidence, id); Conserved(m) && Numbered(m)
  {
    var m := Emit(l, now, source, key, kind, rec, evidence, id);
    var c := m.calls[|l.calls|];
    IssuedAppend(l.calls, c);
    if c.event.Some? {
      var entry := Queued(c.event.value, now);
      FreshNumber(l, c.event.value);
      forall e: Event
        ensures Placed(m, e)
      {
        CountAppend(l.st.outbox, entry, OfEvent(e));
        assert Placed(l, e);
      }
    } else {
      forall e: Event
        ensures Placed(m, e)
      {
        assert Placed(l, e);
      }
    }
  }

  /** A fresh entry at the tail of the outbox. */
  lemma QueuedState(st: State, t: State, e: Event, now: int)
    requires Tallied(st) && Shaped(st) && Flagged(st)
    requires e.sequence == st.sequence + 1
    requires t == st.(sequence := st.sequence + 1, outbox := st.outbox + [Queued(e, now)])
    ensures Tallied(t) && Shaped(t)
    ensures Flagged(t)
  {
    CountAppend(st.outbox, Queued(e, now), OfStatus(Skipped));
    CountAppend(st.outbox, Queued(e, now), OfStatus(Duplicate));
    assert forall i | 0 <= i < |st.outbox| :: t.outbox[i] == st.outbox[i] && QueuedEntry(st.outbox[i], st.sequence);
    assert QueuedEntry(t.outbox[|st.outbox|], t.sequence);
    assert Outstanding(t) ==> Outstanding(st);
  }

  lemma EmitState(l: Ledger, now: int, source: string, key: Key, kind: Kind, rec: SignalRecord, evidence: string,
                  id: nat)
    requires Tallied(l.st) && Shaped(l.st) && Bounded(l.st) && Flagged(l.st) && rec.episodeId.Some?
    ensures var st := Emit(l, now, source, key, kind, rec, evidence, id).st;
            Tallied(st) && Shaped(st) && Bounded(st) && Flagged(st)
  {
    if |l.st.outbox| < OUTBOX_LIMIT {
      var e := MakeEvent(l.st, now, source, key, kind, rec, evidence, id);
      QueuedState(l.st, Emit(l, now, source, key, kind, rec, evidence, id).st, e, now);
    }
  }

  lemma EmitQueue(l: Ledger, now: int, source: string, key: Key, kind: Kind, rec: SignalRecord, evidence: string,
                  id: nat)
    requires QueueInv(l) && rec.episodeId.Some?
    ensures QueueInv(Emit(l, now, source, key, kind, rec, evidence, id))
  {
    EmitBooks(l, now, source, key, kind, rec, evidence, id);
    EmitState(l, now, source, key, kind, rec, evidence, id);
  }

  /** Changes outside the queue keep the invariant. */
  lemma SameQueue(l: Ledger, m: Ledger)
    requires QueueInv(l) && Bounded(m.st)
    requires m.st.outbox == l.st.outbox && m.st.history == l.st.history && m.evicted == l.evicted && m.calls == l.calls
    requires m.st.sequence == l.st.sequence && m.st.counters == l.st.counters && m.st.transport == l.st.transport
    ensures QueueInv(m)
  {
    forall e: Event
      ensures Placed(m, e)
    {
      assert Placed(l, e);
    }
  }

  lemma ObserveQueue(l: Ledger, source: string, key: Key, ok: bool, now: int, errors: string, episode: nat, id: nat)
    requires QueueInv(l) && SignalsWf(l.st) && ObserveFits(l.st, key)
    ensures QueueInv(Observe(l, source, key, ok, now, errors, episode, id))
  {
    var rec := RecordOf(l.st, key);
    var sampled := Sampled(rec, key.signal, ok, now, errors, episode);
    var signals := l.st.signals[key := Settled(sampled, ok)];
    assert signals.Keys == l.st.signals.Keys + {key};
    var stored := WithSample(l, key, Settled(sampled, ok), ok, now, errors);
    SameQueue(l, stored);
    if Transition(rec, key.signal, ok).Some? {
      EmitQueue(stored, now, source, key, Transition(rec, key.signal, ok).value, sampled, sampled.lastErrors, id);
    }
  }

  lemma InvocationQueue(l: Ledger, invocation: string)
    requires QueueInv(l)
    ensures QueueInv(WithInvocation(l, invocation))
  {
    SameQueue(l, WithInvocation(l, invocation));
  }

  lemma UnroutableQueue(l: Ledger, now: int)
    requires QueueInv(l)
    ensures QueueInv(Unroutable(l, now))
  {
    forall e: Event
      ensures Placed(Unroutable(l, now), e)
    {
      assert Placed(l, e);
    }
  }

  // ---- one entry changes in place --------------------------------------------------------------

  /** `m` differs from `l` in one waiting entry, which still waits, and in transport or exhausted. */
  predicate Retouched(l: Ledger, m: Ledger, i: nat, x: Entry) {
    && i < |l.st.outbox|
    && x.event == l.st.outbox[i].event && Waiting(x) && Waiting(l.st.outbox[i])
    && m == l.(st := l.st.(outbox := l.st.outbox[i := x], transport := m.st.transport,
                           counters := l.st.counters.(exhausted := m.st.counters.exhausted)))
  }

  lemma RetouchedBooks(l: Ledger, m: Ledger, i: nat, x: Entry)
    requires Conserved(l) && Tallied(l.st) && Retouched(l, m, i, x)
    ensures Conserved(m) && Tallied(m.st)
  {
    forall e: Event
      ensures Placed(m, e)
    {
      assert Placed(l, e);
      CountUpdate(l.st.outbox, i, x, OfEvent(e));
    }
    CountUpdate(l.st.outbox, i, x, OfStatus(Skipped));
    CountUpdate(l.st.outbox, i, x, OfStatus(Duplicate));
  }

  lemma RetouchedQueue(l: Ledger, m: Ledger, i: nat, x: Entry)
    requires QueueInv(l) && Retouched(l, m, i, x) && EntryInv(x) && Flagged(m.st)
    ensures QueueInv(m)
  {
    RetouchedBooks(l, m, i, x);
  }

  lemma CountedQueue(l: Ledger, i: nat)
    requires QueueInv(l) && i < |l.st.outbox| && l.st.outbox[i].status == Pending
             && l.st.outbox[i].attempts < MAX_ATTEMPTS
    ensures QueueInv(Counted(l, i))
  {
    var m := Counted(l, i);
    assert Outstanding(m.st) ==> Outstanding(l.st) by {
      assert forall k | 0 <= k < |m.st.outbox| ::
          m.st.outbox[k].status == l.st.outbox[k].status && m.st.outbox[k].lastError == l.st.outbox[k].lastError;
    }
    RetouchedQueue(l, m, i, m.st.outbox[i]);
  }

  lemma ExhaustedQueue(l: Ledger, i: nat)
    requires QueueInv(l) && i < |l.st.outbox| && l.st.outbox[i].status == Pending
    ensures QueueInv(ExhaustedAt(l, i))
  {
    var m := ExhaustedAt(l, i);
    RetouchedQueue(l, m, i, m.st.outbox[i]);
  }

  lemma FailedQueue(l: Ledger, i: nat, fault: Fault, now: int)
    requires QueueInv(l) && i < |l.st.outbox| && l.st.outbox[i].status == Pending
    ensures QueueInv(Failed(l, i, fault, now))
  {
    var m := Failed(l, i, fault, now);
    RetouchedQueue(l, m, i, m.st.outbox[i]);
  }

  lemma RedrivenHits(st: State, now: int)
    ensures var o := RearmedAll(st.outbox, now);
            forall i | 0 <= i < |o| :: o[i].event == st.outbox[i].event
                                       && Hit(o[i], OfStatus(Skipped)) == Hit(st.outbox[i], OfStatus(Skipped))
                                       && Hit(o[i], OfStatus(Duplicate)) == Hit(st.outbox[i], OfStatus(Duplicate))
  {
  }

  lemma RedrivenState(st: State, now: int)
    requires Shaped(st) && Bounded(st) && Flagged(st)
    ensures var t := st.(outbox := RearmedAll(st.outbox, now)); Shaped(t) && Bounded(t) && Flagged(t)
  {
    var o := RearmedAll(st.outbox, now);
    assert forall k | 0 <= k < |o| :: o[k] == Rearmed(st.outbox[k], now);
  }

  lemma RedriveTally(l: Ledger, now: int)
    requires Tallied(l.st)
    ensures Tallied(Redrive(l, now).st)
  {
    var m := Redrive(l, now);
    RedrivenHits(l.st, now);
    CountSame(l.st.outbox, m.st.outbox, OfStatus(Skipped));
    CountSame(l.st.outbox, m.st.outbox, OfStatus(Duplicate));
  }

  lemma RedriveQueue(l: Ledger, now: int)
    requires QueueInv(l)
    ensures QueueInv(Redrive(l, now))
  {
    var m := Redrive(l, now);
    RedrivenState(l.st, now);
    hide Tallied, Shaped, Bounded, Flagged, RearmedAll;
    RedriveTally(l, now);
    forall e: Event
      ensures Placed(m, e)
    {
      assert Placed(l, e);
      RedrivenHits(l.st, now);
      CountSame(l.st.outbox, m.st.outbox, OfEvent(e));
    }
  }

  // ---- a terminal reply ------------------------------------------------------------------------

  /** Trimming moves entries out without losing any. */
  lemma {:induction false} TrimmedCounts(h: seq<Entry>, q: Query)
    ensures Count(Trimmed(h).0, q) + Count(Trimmed(h).1, q) == Count(h, q)
    decreases |h|
  {
    if |h| > HISTORY_LIMIT && FirstAccepted(h).Some? {
      var k := FirstAccepted(h).value;
      TrimmedCounts(Remove(h, k), q);
      CountSplit(h, k, q);
      CountConcat([h[k]], Trimmed(Remove(h, k)).1, q);
      CountAppend([], h[k], q);
      assert [] + [h[k]] == [h[k]];
    }
  }

  /** What is trimmed away was accepted; what stays was there. */
  lemma {:induction false} TrimmedMembers(h: seq<Entry>)
    requires forall i | 0 <= i < |h| :: RetiredEntry(h[i])
    ensures AcceptedOnly(Trimmed(h).1)
    ensures forall i | 0 <= i < |Trimmed(h).0| :: RetiredEntry(Trimmed(h).0[i])
    decreases |h|
  {
    if |h| > HISTORY_LIMIT && FirstAccepted(h).Some? {
      TrimmedMembers(Remove(h, FirstAccepted(h).value));
    }
  }

  lemma AcceptedOnlyHasNo(es: seq<Entry>, status: Status)
    requires AcceptedOnly(es) && status != Accepted
    ensures Count(es, OfStatus(status)) == 0
  {
    if es != [] {
      AcceptedOnlyHasNo(es[..|es| - 1], status);
    }
  }

  /** Retiring an entry moves one event and changes one status. */
  lemma RetiredCounts(l: Ledger, i: nat, reply: Reply, q: Query)
    requires i < |l.st.outbox| && reply.Terminal?
    ensures Places(Retired(l, i, reply), q) + Hit(l.st.outbox[i], q) == Places(l, q)
            + Hit(Resolved(l.st.outbox[i], reply), q)
  {
    hide Trimmed, Hit, Resolved;
    var entry := Resolved(l.st.outbox[i], reply);
    var h := l.st.history + [entry];
    CountSplit(l.st.outbox, i, q);
    CountAppend(l.st.history, entry, q);
    TrimmedCounts(h, q);
    CountConcat(l.evicted, Trimmed(h).1, q);
    CountUpdate(l.st.outbox, i, entry, q);
  }

  lemma RetiredEvicted(l: Ledger, i: nat, reply: Reply)
    requires Shaped(l.st) && AcceptedOnly(l.evicted) && i < |l.st.outbox| && l.st.outbox[i].status == Pending
             && IsTerminal(reply)
    ensures AcceptedOnly(Retired(l, i, reply).evicted)
    ensures forall k | 0 <= k < |Retired(l, i, reply).st.history| :: RetiredEntry(Retired(l, i, reply).st.history[k])
  {
    var entry := Resolved(l.st.outbox[i], reply);
    assert QueuedEntry(l.st.outbox[i], l.st.sequence);
    TrimmedMembers(l.st.history + [entry]);
  }

  lemma RetiredOutbox(l: Ledger, i: nat, reply: Reply)
    requires Shaped(l.st) && i < |l.st.outbox| && l.st.outbox[i].status == Pending && IsTerminal(reply)
    ensures Ordered(Retired(l, i, reply).st.outbox)
    ensures forall k | 0 <= k < |Retired(l, i, reply).st.outbox| ::
              QueuedEntry(Retired(l, i, reply).st.outbox[k], l.st.sequence)
  {
    var entry := Resolved(l.st.outbox[i], reply);
    assert QueuedEntry(l.st.outbox[i], l.st.sequence);
    var removed := Remove(l.st.outbox, i);
    assert forall k | 0 <= k < |removed| :: removed[k] == l.st.outbox[if k < i then k else k + 1];
  }

  lemma AnsweredBooks(l: Ledger, i: nat, reply: Reply, now: int)
    requires Conserved(l) && Numbered(l) && i < |l.st.outbox| && IsTerminal(reply)
    ensures Conserved(Answered(l, i, reply, now)) && Numbered(Answered(l, i, reply, now))
  {
    var m := Answered(l, i, reply, now);
    forall e: Event
      ensures Placed(m, e)
    {
      assert Placed(l, e);
      RetiredCounts(l, i, reply, OfEvent(e));
    }
  }

  lemma AnsweredTally(l: Ledger, i: nat, reply: Reply, now: int)
    requires Tallied(l.st) && AcceptedOnly(l.evicted) && Shaped(l.st)
    requires i < |l.st.outbox| && l.st.outbox[i].status == Pending && IsTerminal(reply)
    ensures Tallied(Answered(l, i, reply, now).st)
  {
    RetiredEvicted(l, i, reply);
    RetiredTally(l, i, reply, Skipped);
    RetiredTally(l, i, reply, Duplicate);
  }

  lemma RetiredTally(l: Ledger, i: nat, reply: Reply, s: Status)
    requires i < |l.st.outbox| && l.st.outbox[i].status == Pending && reply.Terminal?
             && (s == Skipped || s == Duplicate)
    requires AcceptedOnly(l.evicted) && AcceptedOnly(Retired(l, i, reply).evicted)
    ensures var st := Retired(l, i, reply).st;
            Count(st.outbox, OfStatus(s)) + Count(st.history, OfStatus(s))
            == Count(l.st.outbox, OfStatus(s)) + Count(l.st.history, OfStatus(s)) + if reply.status == s then 1 else 0
  {
    RetiredCounts(l, i, reply, OfStatus(s));
    AcceptedOnlyHasNo(l.evicted, s);
    AcceptedOnlyHasNo(Retired(l, i, reply).evicted, s);
  }

  lemma AnsweredQueue(l: Ledger, i: nat, reply: Reply, now: int)
    requires QueueInv(l) && i < |l.st.outbox| && l.st.outbox[i].status == Pending
    ensures QueueInv(Answered(l, i, reply, now))
  {
    if IsTerminal(reply) {
      AnsweredBooks(l, i, reply, now);
      AnsweredTally(l, i, reply, now);
      RetiredEvicted(l, i, reply);
      RetiredOutbox(l, i, reply);
    } else {
      FailedQueue(l, i, if reply.Faulted? then reply.fault else InvalidResponse, now);
    }
  }

  // ---- what the invariant gives ----------------------------------------------------------------

  /** `save` refuses no state that the steps build: the only refusal left is the byte size. */
  lemma ReachedStatesAreValid(l: Ledger)
    requires QueueInv(l) && SignalsWf(l.st)
    ensures ValidState(l.st)
  {
    forall e | e in l.st.outbox
      ensures ValidEntry(e)
    {
      var i :| 0 <= i < |l.st.outbox| && l.st.outbox[i] == e;
      assert QueuedEntry(l.st.outbox[i], l.st.sequence);
    }
    forall e | e in l.st.history
      ensures ValidEntry(e)
    {
      var i :| 0 <= i < |l.st.history| && l.st.history[i] == e;
      assert RetiredEntry(l.st.history[i]);
    }
  }
}
