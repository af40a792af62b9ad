/** All runs of one host: crashes at any point, arbitrary replies, and the law of what was sent. */
module AlertRuns {
  import opened HealthEvents
  import opened AlertLedger
  import opened AlertSignals
  import opened AlertQueue

  /** The state file, the copy a process works on, the UUID source, which no crash resets, and the
      requests that left the host.  `armed` names the attempt counted on disk but not yet answered. */
  datatype Sys = Sys(disk: Ledger, mem: Ledger, uuids: nat, sent: seq<Event>, armed: Option<nat>)

  datatype Action =
    | Reload                                             // a crash, or the next locked invocation
    | Save
    | Sample(key: Key, ok: bool, now: int, errors: string)
    | Record(invocation: string)
    | LoseRoute(now: int)
    | Arm(index: nat)                                    // count an attempt and save, before the request
    | Send(reply: Reply, now: int)                       // the request leaves and is answered
    | Exhaust(index: nat)
    | Rearm(now: int)
    | Elsewhere(n: nat)                                  // UUIDs drawn by other hosts

  const INITIAL := Sys(EMPTY_LEDGER, EMPTY_LEDGER, 0, [], None)

  predicate PendingAt(st: State, i: nat) {
    i < |st.outbox| && st.outbox[i].status == Pending
  }

  /** An attempt in flight is answered, or lost with its process, before anything else happens. */
  predicate Enabled(s: Sys, a: Action) {
    match a
    case Reload => true
    case Elsewhere(_) => true
    case Send(_, _) => s.armed.Some? && PendingAt(s.mem.st, s.armed.value)
    case Sample(key, _, _, _) => s.armed.None? && ObserveFits(s.mem.st, key) && SignalsWf(s.mem.st)
    case Arm(i) => s.armed.None? && PendingAt(s.mem.st, i) && s.mem.st.outbox[i].attempts < MAX_ATTEMPTS
    case Exhaust(i) => s.armed.None? && PendingAt(s.mem.st, i) && s.mem.st.outbox[i].attempts >= MAX_ATTEMPTS
    case _ => s.armed.None?
  }

  function Effect(source: string, s: Sys, a: Action): Sys
    requires Enabled(s, a)
  {
    match a
    case Reload => s.(mem := s.disk, armed := None)
    case Save => s.(disk := s.mem)
    case Sample(key, ok, now, errors) =>
      s.(mem := Observe(s.mem, source, key, ok, now, errors, s.uuids, s.uuids + 1), uuids := s.uuids + 2)
    case Record(invocation) => s.(mem := WithInvocation(s.mem, invocation))
    case LoseRoute(now) => s.(mem := Unroutable(s.mem, now))
    case Arm(i) => s.(mem := Counted(s.mem, i), disk := Counted(s.mem, i), armed := Some(i))
    case Send(reply, now) =>
      s.(mem := Answered(s.mem, s.armed.value, reply, now), armed := None,
         sent := s.sent + [s.mem.st.outbox[s.armed.value].event])
    case Exhaust(i) => s.(mem := ExhaustedAt(s.mem, i))
    case Rearm(now) => s.(mem := Redrive(s.mem, now))
    case Elsewhere(n) => s.(uuids := s.uuids + n)
  }

  /** One step, if the program can take it. */
  function Step(source: string, s: Sys, a: Action): Option<Sys> {
    if Enabled(s, a) then Some(Effect(source, s, a)) else None
  }

  function Run(source: string, s: Sys, actions: seq<Action>): Option<Sys> {
    if actions == [] then Some(s)
    else match Run(source, s, actions[..|actions| - 1])
      case None => None
      case Some(t) => Step(source, t, actions[|actions| - 1])
  }

  lemma RunAppend(source: string, s: Sys, actions: seq<Action>, a: Action)
    ensures Run(source, s, actions + [a])
            == match Run(source, s, actions) case None => None case Some(t) => Step(source, t, a)
  {
    assert (actions + [a])[..|actions|] == actions;
  }

  // ---- the law, kept by every sample -----------------------------------------------------------

  /** An issued event of this host, named by UUIDs already drawn. */
  predicate Own(e: Event, source: string, uuids: nat) {
    e.source == source && e.eventId < uuids && e.episodeId < uuids
  }

  /** An episode still failing under a key has only unrecovered events of that key. */
  ghost predicate OpenEpisode(issued: seq<Event>, key: Key, episode: nat) {
    forall e | e in issued && e.episodeId == episode ::
        e.group == key.group && e.signal == key.signal && e.kind != Recovery
  }

  ghost predicate LawfulEvents(issued: seq<Event>, source: string, uuids: nat) {
    && (forall e | e in issued :: Own(e, source, uuids))
    && (forall e, f | e in issued && f in issued :: Coherent(e, f))
  }

  ghost predicate LawfulSignals(st: State, issued: seq<Event>, uuids: nat) {
    && (forall k | k in st.signals && st.signals[k].failing ::
          st.signals[k].episodeId.Some? && st.signals[k].episodeId.value < uuids
              && OpenEpisode(issued, k, st.signals[k].episodeId.value))
    && (forall k, m | k in st.signals && m in st.signals && st.signals[k].failing && st.signals[m].failing
                      && st.signals[k].episodeId == st.signals[m].episodeId :: k == m)
  }

  ghost predicate Lawful(l: Ledger, source: string, uuids: nat) {
    LawfulEvents(Issued(l.calls), source, uuids) && LawfulSignals(l.st, Issued(l.calls), uuids)
  }

  /** A numbered event joins: its ID is new and its episode is new or open under its own key. */
  lemma JoinLaw(issued: seq<Event>, source: string, uuids: nat, e: Event)
    requires LawfulEvents(issued, source, uuids)
    requires e.source == source && e.eventId == uuids + 1 && e.episodeId <= uuids
    requires OpenEpisode(issued, Key(e.group, e.signal), e.episodeId)
    requires forall f | f in issued :: f.sequence < e.sequence
    ensures LawfulEvents(issued + [e], source, uuids + 2)
  {
    forall f, g | f in issued + [e] && g in issued + [e]
      ensures Coherent(f, g)
    {
      if f in issued && g in issued {
      } else {
        assert forall h | h in issued :: Own(h, source, uuids) && Coherent(e, h) && Coherent(h, e);
      }
    }
    forall f | f in issued + [e]
      ensures Own(f, source, uuids + 2)
    {
      if f in issued {
        assert Own(f, source, uuids);
      }
    }
  }

  lemma FreshEpisodeIsOpen(issued: seq<Event>, source: string, uuids: nat, key: Key)
    requires LawfulEvents(issued, source, uuids)
    ensures OpenEpisode(issued, key, uuids)
  {
    forall e | e in issued
      ensures e.episodeId != uuids
    {
      assert Own(e, source, uuids);
    }
  }

  /** The record of one key after a sample, against the events issued so far. */
  lemma SampledEpisode(l: Ledger, source: string, uuids: nat, key: Key, ok: bool, now: int, errors: string)
    requires Lawful(l, source, uuids) && SignalsWf(l.st)
    requires ok ==> RecordOf(l.st, key).failing
    ensures var r := Sampled(RecordOf(l.st, key), key.signal, ok, now, errors, uuids);
            r.failing && r.episodeId.Some? && r.episodeId.value <= uuids
                && OpenEpisode(Issued(l.calls), key, r.episodeId.value)
  {
    FreshEpisodeIsOpen(Issued(l.calls), source, uuids, key);
  }

  /** The events one sample adds: none, or one of its own key and episode. */
  function Added(l: Ledger, m: Ledger): seq<Event> {
    if |m.calls| > |l.calls| then Heard(m.calls[|m.calls| - 1]) else []
  }

  ghost predicate AddedBy(added: seq<Event>, key: Key, episode: Option<nat>, ok: bool) {
    forall e | e in added :: e.group == key.group && e.signal == key.signal && Some(e.episodeId) == episode
        && (e.kind == Recovery <==> ok)
  }

  lemma EmitIssues(l: Ledger, source: string, uuids: nat, key: Key, kind: Kind, r: SignalRecord, now: int)
    requires LawfulEvents(Issued(l.calls), source, uuids) && Numbered(l)
    requires r.episodeId.Some? && r.episodeId.value <= uuids && OpenEpisode(Issued(l.calls), key, r.episodeId.value)
    ensures var m := Emit(l, now, source, key, kind, r, r.lastErrors, uuids + 1);
            && l.calls <= m.calls
            && Issued(m.calls) == Issued(l.calls) + Added(l, m)
            && LawfulEvents(Issued(m.calls), source, uuids + 2)
            && AddedBy(Added(l, m), key, r.episodeId, kind == Recovery)
  {
    var m := Emit(l, now, source, key, kind, r, r.lastErrors, uuids + 1);
    var c := m.calls[|l.calls|];
    IssuedAppend(l.calls, c);
    LaterLaw(Issued(l.calls), source, uuids, uuids + 2);
    if c.event.Some? {
      JoinLaw(Issued(l.calls), source, uuids, c.event.value);
    }
  }

  lemma LaterLaw(issued: seq<Event>, source: string, uuids: nat, more: nat)
    requires LawfulEvents(issued, source, uuids) && uuids <= more
    ensures LawfulEvents(issued, source, more)
  {
    forall e | e in issued
      ensures Own(e, source, more)
    {
      assert Own(e, source, uuids);
    }
  }

  lemma ObserveIssues(l: Ledger, source: string, uuids: nat, key: Key, ok: bool, now: int, errors: string)
    requires Lawful(l, source, uuids) && SignalsWf(l.st) && Numbered(l)
    ensures var m := Observe(l, source, key, ok, now, errors, uuids, uuids + 1);
            && l.calls <= m.calls
            && Issued(m.calls) == Issued(l.calls) + Added(l, m)
            && LawfulEvents(Issued(m.calls), source, uuids + 2)
            && AddedBy(Added(l, m), key, Sampled(RecordOf(l.st, key), key.signal, ok, now, errors, uuids).episodeId, ok)
  {
    var rec := RecordOf(l.st, key);
    LaterLaw(Issued(l.calls), source, uuids, uuids + 2);
    if Transition(rec, key.signal, ok).Some? {
      SampledEpisode(l, source, uuids, key, ok, now, errors);
      var r := Sampled(rec, key.signal, ok, now, errors, uuids);
      var stored := WithSample(l, key, Settled(r, ok), ok, now, errors);
      EmitIssues(stored, source, uuids, key, Transition(rec, key.signal, ok).value, r, now);
    }
  }

  /** What one sample adds to the events under an open episode is of that episode's key. */
  lemma EpisodeStaysOpen(issued: seq<Event>, added: seq<Event>, key: Key, episode: Option<nat>, ok: bool, k: Key,
                         p: nat)
    requires OpenEpisode(issued, k, p) && AddedBy(added, key, episode, ok)
    requires Some(p) == episode ==> k == key && !ok
    ensures OpenEpisode(issued + added, k, p)
  {
  }

  lemma SampledSignals(l: Ledger, source: string, uuids: nat, key: Key, ok: bool, now: int, errors: string)
    requires SignalsWf(l.st)
    ensures var m, rec := Observe(l, source, key, ok, now, errors, uuids, uuids + 1), RecordOf(l.st, key);
            var r := Settled(Sampled(rec, key.signal, ok, now, errors, uuids), ok);
            && m.st.signals == l.st.signals[key := r]
            && (r.failing ==> !ok && r.episodeId == if rec.failing then rec.episodeId else Some(uuids))
            && (ok && !rec.failing ==> m.calls == l.calls)
  {
  }

  /** One failing signal after a sample. */
  lemma ObservedSignal(l: Ledger, source: string, uuids: nat, key: Key, ok: bool, now: int, errors: string, k: Key)
    requires Lawful(l, source, uuids) && SignalsWf(l.st) && Numbered(l)
    requires var m := Observe(l, source, key, ok, now, errors, uuids, uuids + 1);
             k in m.st.signals && m.st.signals[k].failing
    ensures var m := Observe(l, source, key, ok, now, errors, uuids, uuids + 1);
            m.st.signals[k].episodeId.Some? && m.st.signals[k].episodeId.value < uuids + 2
            && OpenEpisode(Issued(m.calls), k, m.st.signals[k].episodeId.value)
  {
    var m := Observe(l, source, key, ok, now, errors, uuids, uuids + 1);
    var rec := RecordOf(l.st, key);
    var r := Sampled(rec, key.signal, ok, now, errors, uuids);
    ObserveIssues(l, source, uuids, key, ok, now, errors);
    SampledSignals(l, source, uuids, key, ok, now, errors);
    if !ok || rec.failing {
      SampledEpisode(l, source, uuids, key, ok, now, errors);
    }
    hide Observe, Numbered, Issued, Added, OpenEpisode, LawfulEvents, AddedBy;
    if k != key && rec.failing {
      assert l.st.signals[k].episodeId != rec.episodeId;
    }
    if !ok || rec.failing {
      EpisodeStaysOpen(Issued(l.calls), Added(l, m), key, r.episodeId, ok, k, m.st.signals[k].episodeId.value);
    }
  }

  lemma ObservedSignals(l: Ledger, source: string, uuids: nat, key: Key, ok: bool, now: int, errors: string)
    requires Lawful(l, source, uuids) && SignalsWf(l.st) && Numbered(l)
    ensures var m := Observe(l, source, key, ok, now, errors, uuids, uuids + 1);
            LawfulSignals(m.st, Issued(m.calls), uuids + 2)
  {
    SampledSignals(l, source, uuids, key, ok, now, errors);
    hide Observe, Numbered, Issued, OpenEpisode, LawfulEvents, Sampled, Settled;
    var m := Observe(l, source, key, ok, now, errors, uuids, uuids + 1);
    forall k | k in m.st.signals && m.st.signals[k].failing
      ensures m.st.signals[k].episodeId.Some? && m.st.signals[k].episodeId.value < uuids + 2
      ensures OpenEpisode(Issued(m.calls), k, m.st.signals[k].episodeId.value)
    {
      ObservedSignal(l, source, uuids, key, ok, now, errors, k);
    }
  }

  lemma ObserveLawful(l: Ledger, source: string, uuids: nat, key: Key, ok: bool, now: int, errors: string)
    requires Lawful(l, source, uuids) && SignalsWf(l.st) && Numbered(l)
    ensures Lawful(Observe(l, source, key, ok, now, errors, uuids, uuids + 1), source, uuids + 2)
  {
    ObserveIssues(l, source, uuids, key, ok, now, errors);
    ObservedSignals(l, source, uuids, key, ok, now, errors);
    hide Observe, Numbered, LawfulEvents, LawfulSignals, SignalsWf;
  }

  // ---- the invariant over all runs -------------------------------------------------------------

  ghost predicate LedgerInv(l: Ledger, source: string, uuids: nat) {
    QueueInv(l) && SignalsInv(l) && Lawful(l, source, uuids)
  }

  ghost predicate SysInv(source: string, s: Sys) {
    && LedgerInv(s.disk, source, s.uuids)
    && LedgerInv(s.mem, source, s.uuids)
    && s.disk.calls <= s.mem.calls
    && (forall e | e in s.sent :: e in Issued(s.disk.calls))
    && (s.armed.Some? ==>
          s.mem == s.disk && PendingAt(s.mem.st, s.armed.value) && s.mem.st.outbox[s.armed.value].attempts > 0)
  }

  lemma InitialInv(source: string)
    ensures SysInv(source, INITIAL)
  {
    hide SignalsInv, QueueInv;
    EmptyQueue();
    EmptySignals();
  }

  lemma IssuedMonotone(a: seq<Call>, b: seq<Call>)
    requires a <= b
    ensures Issued(a) <= Issued(b)
  {
    if a != b {
      IssuedMonotone(a, b[..|b| - 1]);
    } else {
      assert a == b;
    }
  }

  lemma MoreUuids(l: Ledger, source: string, uuids: nat, more: nat)
    requires LedgerInv(l, source, uuids) && uuids <= more
    ensures LedgerInv(l, source, more)
  {
    LaterLaw(Issued(l.calls), source, uuids, more);
  }

  /** Steps of delivery leave the signals, the samples and the calls alone. */
  lemma DeliveryKeepsLaw(l: Ledger, m: Ledger, source: string, uuids: nat)
    requires SignalsInv(l) && Lawful(l, source, uuids)
    requires m.st.signals == l.st.signals && m.samples == l.samples && m.calls == l.calls
    ensures SignalsInv(m) && Lawful(m, source, uuids)
  {
    forall key: Key
      ensures FollowsSamples(m, key)
    {
      assert FollowsSamples(l, key);
    }
  }

  lemma SampleKeepsLedger(l: Ledger, source: string, uuids: nat, key: Key, ok: bool, now: int, errors: string)
    requires LedgerInv(l, source, uuids) && ObserveFits(l.st, key) && SignalsWf(l.st)
    ensures LedgerInv(Observe(l, source, key, ok, now, errors, uuids, uuids + 1), source, uuids + 2)
    ensures l.calls <= Observe(l, source, key, ok, now, errors, uuids, uuids + 1).calls
  {
    ObserveQueue(l, source, key, ok, now, errors, uuids, uuids + 1);
    ObserveSignals(l, source, key, ok, now, errors, uuids, uuids + 1);
    ObserveLawful(l, source, uuids, key, ok, now, errors);
    ObserveIssues(l, source, uuids, key, ok, now, errors);
  }

  lemma SampleKeepsInv(source: string, s: Sys, key: Key, ok: bool, now: int, errors: string)
    requires SysInv(source, s) && Enabled(s, Sample(key, ok, now, errors))
    ensures SysInv(source, Effect(source, s, Sample(key, ok, now, errors)))
  {
    hide LedgerInv, Observe;
    SampleKeepsLedger(s.mem, source, s.uuids, key, ok, now, errors);
    MoreUuids(s.disk, source, s.uuids, s.uuids + 2);
  }

  lemma AnswerFrame(l: Ledger, i: nat, reply: Reply, now: int)
    requires i < |l.st.outbox|
    ensures var m := Answered(l, i, reply, now);
            m.st.signals == l.st.signals && m.samples == l.samples && m.calls == l.calls
  {
  }

  lemma AnswerKeepsLedger(l: Ledger, source: string, uuids: nat, i: nat, reply: Reply, now: int)
    requires LedgerInv(l, source, uuids) && PendingAt(l.st, i)
    ensures LedgerInv(Answered(l, i, reply, now), source, uuids)
    ensures Answered(l, i, reply, now).calls == l.calls
    ensures l.st.outbox[i].event in Issued(l.calls)
  {
    hide Answered, SignalsInv, Lawful;
    AnsweredQueue(l, i, reply, now);
    AnswerFrame(l, i, reply, now);
    DeliveryKeepsLaw(l, Answered(l, i, reply, now), source, uuids);
    HeldIsIssued(l, i);
  }

  lemma SendKeepsInv(source: string, s: Sys, reply: Reply, now: int)
    requires SysInv(source, s) && s.armed.Some?
    ensures SysInv(source, Effect(source, s, Send(reply, now)))
  {
    hide LedgerInv, Answered;
    AnswerKeepsLedger(s.mem, source, s.uuids, s.armed.value, reply, now);
  }

  /** An entry of the outbox was issued. */
  lemma HeldIsIssued(l: Ledger, i: nat)
    requires Conserved(l) && i < |l.st.outbox|
    ensures l.st.outbox[i].event in Issued(l.calls)
  {
    CountSplit(l.st.outbox, i, OfEvent(l.st.outbox[i].event));
    assert Placed(l, l.st.outbox[i].event);
  }

  /** The copy in memory after a delivery step that sends nothing. */
  function Handled(l: Ledger, a: Action): Ledger
    requires a.Arm? || a.Exhaust? ==> PendingAt(l.st, a.index)
  {
    match a
    case Record(invocation) => WithInvocation(l, invocation)
    case LoseRoute(now) => Unroutable(l, now)
    case Arm(i) => Counted(l, i)
    case Exhaust(i) => ExhaustedAt(l, i)
    case Rearm(now) => Redrive(l, now)
    case _ => l
  }

  lemma HandlingKeepsLedger(l: Ledger, a: Action, source: string, uuids: nat)
    requires LedgerInv(l, source, uuids)
    requires a.Arm? || a.Exhaust? ==> PendingAt(l.st, a.index)
    requires a.Arm? ==> l.st.outbox[a.index].attempts < MAX_ATTEMPTS
    ensures LedgerInv(Handled(l, a), source, uuids)
  {
    hide QueueInv, SignalsInv, Lawful;
    match a {
      case Record(invocation) => InvocationQueue(l, invocation);
      case LoseRoute(now) => UnroutableQueue(l, now);
      case Arm(i) => CountedQueue(l, i);
      case Exhaust(i) => ExhaustedQueue(l, i);
      case Rearm(now) => RedriveQueue(l, now);
      case _ =>
    }
    DeliveryKeepsLaw(l, Handled(l, a), source, uuids);
  }

  lemma DeliveryKeepsInv(source: string, s: Sys, a: Action)
    requires SysInv(source, s) && Enabled(s, a)
    requires a.Record? || a.LoseRoute? || a.Arm? || a.Exhaust? || a.Rearm?
    ensures SysInv(source, Effect(source, s, a))
  {
    hide LedgerInv;
    HandlingKeepsLedger(s.mem, a, source, s.uuids);
    IssuedMonotone(s.disk.calls, s.mem.calls);
  }

  lemma StepKeepsInv(source: string, s: Sys, a: Action)
    requires SysInv(source, s) && Enabled(s, a)
    ensures SysInv(source, Effect(source, s, a))
  {
    hide LedgerInv;
    match a {
      case Reload =>
      case Save => IssuedMonotone(s.disk.calls, s.mem.calls);
      case Sample(key, ok, now, errors) => SampleKeepsInv(source, s, key, ok, now, errors);
      case Send(reply, now) => SendKeepsInv(source, s, reply, now);
      case Elsewhere(n) =>
        MoreUuids(s.disk, source, s.uuids, s.uuids + n);
        MoreUuids(s.mem, source, s.uuids, s.uuids + n);
      case _ => DeliveryKeepsInv(source, s, a);
    }
  }

  /** Every reachable state, whatever crashed and whatever the network answered. */
  lemma {:induction false} RunKeepsInv(source: string, s: Sys, actions: seq<Action>)
    requires SysInv(source, s) && Run(source, s, actions).Some?
    ensures SysInv(source, Run(source, s, actions).value)
  {
    hide LedgerInv;
    if actions != [] {
      var init := actions[..|actions| - 1];
      RunKeepsInv(source, s, init);
      StepKeepsInv(source, Run(source, s, init).value, actions[|actions| - 1]);
    }
  }

  // ---- the main results ------------------------------------------------------------------------

  ghost predicate Reachable(source: string, s: Sys) {
    exists actions :: Run(source, INITIAL, actions) == Some(s)
  }

  lemma ReachableInv(source: string, s: Sys)
    requires Reachable(source, s)
    ensures SysInv(source, s)
  {
    hide SysInv;
    var actions :| Run(source, INITIAL, actions) == Some(s);
    InitialInv(source);
    RunKeepsInv(source, INITIAL, actions);
  }

  function SentSet(s: Sys): set<Event> {
    set e | e in s.sent
  }

  lemma DurableEventsAreLawful(source: string, s: Sys)
    requires SysInv(source, s)
    ensures LawfulEvents(Issued(s.disk.calls), source, s.uuids) && Numbered(s.disk)
    ensures forall e | e in s.sent :: e in Issued(s.disk.calls)
  {
  }

  /** Everything that ever left the host obeys the law the receiver relies on, across all crashes,
      and no two events that left it share a number. */
  lemma SentEventsAreLawful(source: string, s: Sys)
    requires Reachable(source, s)
    ensures SenderLaw(SentSet(s))
    ensures forall e, f | e in s.sent && f in s.sent && e.sequence == f.sequence :: e == f
  {
    hide SysInv;
    ReachableInv(source, s);
    DurableEventsAreLawful(source, s);
    var issued := Issued(s.disk.calls);
    forall e, f | e in s.sent && f in s.sent
      ensures Coherent(e, f)
      ensures e.sequence == f.sequence ==> e == f
    {
      assert e in issued && f in issued;
    }
  }

  /** A request carries an event that the state file already holds, with its bytes' digest and a
      counted attempt. */
  lemma SentIsDurable(source: string, s: Sys, reply: Reply, now: int)
    requires Reachable(source, s) && Enabled(s, Send(reply, now))
    ensures var e := Effect(source, s, Send(reply, now)).sent[|s.sent|];
            exists i | 0 <= i < |s.disk.st.outbox| ::
              var entry := s.disk.st.outbox[i];
              entry.event == e && entry.digest == Some(e) && 1 <= entry.attempts <= MAX_ATTEMPTS
  {
    ReachableInv(source, s);
    var i := s.armed.value;
    assert QueuedEntry(s.disk.st.outbox[i], s.disk.st.sequence);
  }

  /** No saved state hides outstanding transport, and `save` never refuses one for its shape. */
  lemma SavedStatesAreValid(source: string, s: Sys)
    requires Reachable(source, s)
    ensures ValidState(s.disk.st) && ValidState(s.mem.st)
    ensures Flagged(s.disk.st) && Flagged(s.mem.st)
    ensures Tallied(s.disk.st) && Tallied(s.mem.st)
  {
    ReachableInv(source, s);
    SignalsInvWf(s.disk);
    SignalsInvWf(s.mem);
    ReachedStatesAreValid(s.disk);
    ReachedStatesAreValid(s.mem);
  }

  /** Every number ever saved has exactly one place, and the calls of `emit` balance. */
  lemma NumbersAreConserved(source: string, s: Sys, n: nat)
    requires Reachable(source, s) && 1 <= n <= s.disk.st.sequence
    ensures var l := s.disk;
            && |l.calls| == l.st.sequence + l.st.counters.dropped
            && exists e: Event :: e.sequence == n && Places(l, OfEvent(e)) == 1
                           && (forall f: Event | f.sequence == n && f != e :: Places(l, OfEvent(f)) == 0)
    ensures forall e: Entry | e in s.disk.evicted :: e.status == Accepted
  {
    ReachableInv(source, s);
    var l := s.disk;
    var e := Issued(l.calls)[n - 1];
    assert Placed(l, e);
    forall f: Event | f.sequence == n && f != e
      ensures Places(l, OfEvent(f)) == 0
    {
      assert Placed(l, f);
    }
  }

  /** Per signal, the calls of `emit` follow the grammar of episodes, whatever else was interleaved. */
  lemma CallsFollowGrammar(source: string, s: Sys, key: Key)
    requires Reachable(source, s)
    ensures KindsFor(s.disk.calls, key) == Announcements(key.signal, SamplesOf(s.disk, key))
    ensures Parsed(KindsFor(s.disk.calls, key)).Some?
  {
    ReachableInv(source, s);
    assert FollowsSamples(s.disk, key);
    AnnouncementsFollowGrammar(key.signal, SamplesOf(s.disk, key));
  }

  // ---- bounded sending -------------------------------------------------------------------------

  /** `c` sends of an event are covered by the attempts a copy of the state has counted for it. */
  ghost predicate Covers(outbox: seq<Entry>, e: Event, c: int) {
    c <= MAX_ATTEMPTS && forall i | 0 <= i < |outbox| && outbox[i].event == e :: c <= outbox[i].attempts
  }

  /** The send count `c` since some point, against both copies and the attempt in flight. */
  ghost predicate Metered(s: Sys, e: Event, c: int) {
    && Covers(s.mem.st.outbox, e, c)
    && Covers(s.disk.st.outbox, e, c)
    && (c > 0 ==> e in s.sent)
    && (s.armed.Some? && PendingAt(s.mem.st, s.armed.value) && s.mem.st.outbox[s.armed.value].event == e ==>
          c < s.mem.st.outbox[s.armed.value].attempts)
  }

  function Sends(sent: seq<Event>, e: Event): nat {
    multiset(sent)[e]
  }

  lemma SampleCovers(l: Ledger, source: string, uuids: nat, key: Key, ok: bool, now: int, errors: string, e: Event,
                     c: int)
    requires SignalsWf(l.st) && Covers(l.st.outbox, e, c) && (c > 0 ==> e.eventId < uuids)
    ensures Covers(Observe(l, source, key, ok, now, errors, uuids, uuids + 1).st.outbox, e, c)
  {
  }

  lemma AnswerCovers(l: Ledger, i: nat, reply: Reply, now: int, e: Event, c: int)
    requires i < |l.st.outbox| && Covers(l.st.outbox, e, c)
    ensures Covers(Answered(l, i, reply, now).st.outbox, e, c)
  {
    hide Trimmed, Outstanding, Backoff, Remove;
    RemoveCovers(l.st.outbox, i, e, c);
    var m := Answered(l, i, reply, now).st.outbox;
    if |m| == |l.st.outbox| {
      assert forall k | 0 <= k < |m| :: m[k].event == l.st.outbox[k].event && m[k].attempts == l.st.outbox[k].attempts;
    } else {
      assert m == Remove(l.st.outbox, i);
    }
  }

  lemma RemoveCovers(outbox: seq<Entry>, i: nat, e: Event, c: int)
    requires i < |outbox| && Covers(outbox, e, c)
    ensures Covers(Remove(outbox, i), e, c) && |Remove(outbox, i)| == |outbox| - 1
  {
    var m := Remove(outbox, i);
    assert forall k | 0 <= k < |m| :: m[k] == outbox[if k < i then k else k + 1];
  }

  lemma CountedCovers(l: Ledger, i: nat, e: Event, c: int)
    requires i < |l.st.outbox| && Covers(l.st.outbox, e, c)
    ensures Covers(Counted(l, i).st.outbox, e, c)
    ensures l.st.outbox[i].event == e ==> c < Counted(l, i).st.outbox[i].attempts
  {
    var m := Counted(l, i).st.outbox;
    assert forall k | 0 <= k < |m| :: m[k].event == l.st.outbox[k].event && m[k].attempts >= l.st.outbox[k].attempts;
  }

  /** One more send of the armed event is still covered, for the queue holds the event once. */
  lemma SendIsCovered(l: Ledger, i: nat, e: Event, c: int)
    requires QueueInv(l) && i < |l.st.outbox| && l.st.outbox[i].event == e
    requires Covers(l.st.outbox, e, c) && c < l.st.outbox[i].attempts
    ensures Covers(l.st.outbox, e, c + 1)
  {
    assert QueuedEntry(l.st.outbox[i], l.st.sequence);
  }

  /** An event already sent was named by a UUID already drawn. */
  lemma SentIsOwn(source: string, s: Sys, e: Event)
    requires SysInv(source, s) && e in s.sent
    ensures e.eventId < s.uuids
  {
    assert e in Issued(s.disk.calls);
    assert Own(e, source, s.uuids);
  }

  lemma SampleMeters(source: string, s: Sys, key: Key, ok: bool, now: int, errors: string, e: Event, c: int)
    requires SysInv(source, s) && Enabled(s, Sample(key, ok, now, errors)) && Metered(s, e, c)
    ensures Metered(Effect(source, s, Sample(key, ok, now, errors)), e, c)
  {
    hide SysInv, Observe;
    if c > 0 {
      SentIsOwn(source, s, e);
    }
    SampleCovers(s.mem, source, s.uuids, key, ok, now, errors, e, c);
  }

  lemma SendMeters(source: string, s: Sys, reply: Reply, now: int, e: Event, c: int)
    requires SysInv(source, s) && Enabled(s, Send(reply, now)) && Metered(s, e, c)
    ensures var t := Effect(source, s, Send(reply, now)); Metered(t, e, c + Sends(t.sent, e) - Sends(s.sent, e))
  {
    hide LedgerInv, Answered;
    var i := s.armed.value;
    var one := if s.mem.st.outbox[i].event == e then 1 else 0;
    if one == 1 {
      assert QueueInv(s.mem) by {
        LedgerIsQueue(s.mem, source, s.uuids);
      }
      SendIsCovered(s.mem, i, e, c);
    }
    AnswerCovers(s.mem, i, reply, now, e, c + one);
  }

  lemma LedgerIsQueue(l: Ledger, source: string, uuids: nat)
    requires LedgerInv(l, source, uuids)
    ensures QueueInv(l)
  {
  }

  lemma StepMeters(source: string, s: Sys, a: Action, e: Event, c: int)
    requires SysInv(source, s) && Enabled(s, a) && !a.Rearm? && Metered(s, e, c)
    ensures Metered(Effect(source, s, a), e, c + Sends(Effect(source, s, a).sent, e) - Sends(s.sent, e))
  {
    hide SysInv;
    if a.Sample? {
      SampleMeters(source, s, a.key, a.ok, a.now, a.errors, e, c);
    } else if a.Send? {
      SendMeters(source, s, a.reply, a.now, e, c);
    } else if a.Arm? {
      CountedCovers(s.mem, a.index, e, c);
    }
  }

  /** Between two redrives an event is sent at most `MAX_ATTEMPTS` times, whatever crashes and replies
      fall in between: the bound is kept on disk. */
  lemma SendsAreBounded(source: string, s: Sys, actions: seq<Action>, e: Event)
    requires Reachable(source, s) && Run(source, s, actions).Some?
    requires forall a | a in actions :: !a.Rearm?
    ensures Sends(Run(source, s, actions).value.sent, e) - Sends(s.sent, e) <= MAX_ATTEMPTS
  {
    hide SysInv, Run, Reachable;
    ReachableInv(source, s);
    MeteredRun(source, s, actions, e);
  }

  lemma {:induction false} MeteredRun(source: string, s: Sys, actions: seq<Action>, e: Event)
    requires SysInv(source, s) && Run(source, s, actions).Some?
    requires forall a | a in actions :: !a.Rearm?
    ensures var t := Run(source, s, actions).value; Metered(t, e, Sends(t.sent, e) - Sends(s.sent, e))
  {
    hide LedgerInv;
    if actions != [] {
      var before := actions[..|actions| - 1];
      MeteredRun(source, s, before, e);
      RunKeepsInv(source, s, before);
      StepMeters(source, Run(source, s, before).value, actions[|actions| - 1], e,
                 Sends(Run(source, s, before).value.sent, e) - Sends(s.sent, e));
    }
  }
}
