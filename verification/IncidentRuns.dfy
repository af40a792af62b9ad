/** All runs of the reconciler: deliveries in any order, crashes, lost replies, creates that land late,
    and the issue tracker that keeps whatever was created. */
module IncidentRuns {
  import opened HealthEvents
  import opened IncidentJournal
  import opened IncidentInvariant
  import opened IncidentDelivery
  import opened IncidentPruning

  /** How far one lifecycle of a marker has come towards creating its issue. */
  datatype Progress = Idle | SawAbsent(marker: Marker) | Intended(marker: Marker) | Recorded(marker: Marker)

  /** The journal on disk and in memory, the `issue create` commands issued per marker, the issues that
      exist per marker, and the create in progress. */
  datatype Sys = Sys(disk: Book, mem: Book, creates: multiset<Marker>, landed: multiset<Marker>, progress: Progress)

  datatype Action =
    | Restart                                      // a crash, or the next locked invocation
    | Deliver(delivery: Delivery, env: Env)        // one call of `process`
    | NoteRun(id: nat, record: RunRecord)          // a run recorded without an event
    | Prune(left: Journal)                         // what `save` discards
    | Commit                                       // what `save` writes
    | Cover(cursor: Cursor)
    | FindPresent(marker: Marker, issue: nat)      // `find_marker` answers the issue
    | FindAbsent(marker: Marker)                   // `find_marker` answers that there is none
    | Intend(marker: Marker)                       // the intent, before it is saved
    | Create(marker: Marker)                       // the external create
    | Learn(marker: Marker, issue: nat)            // its reply
    | Land(marker: Marker)                         // a create taking effect, perhaps much later
    | Move(marker: Marker, phase: Phase, dirty: bool) // indexing and admission

  const INITIAL := Sys(EMPTY_BOOK, EMPTY_BOOK, multiset{}, multiset{}, Idle)

  function Rank(p: Phase): nat {
    match p
    case Pending => 0
    case Uncertain => 1
    case Created => 2
    case Indexed => 3
    case AdmissionPending => 4
    case Admitted => 5
  }

  /** An incident still open, in this phase. */
  predicate HasPhase(j: Journal, m: Marker, phase: Phase) {
    m in j.incidents && j.incidents[m].phase == phase && !j.incidents[m].closed
  }

  function WithIncident(b: Book, m: Marker, inc: Incident): Book {
    b.(j := b.j.(incidents := b.j.incidents[m := inc]))
  }

  /** The book after this journal is left of its own: what is gone was discarded once more. */
  function Discarding(b: Book, k: Journal): (c: Book)
    ensures c == b.(j := k, dropped := c.dropped)
  {
    b.(j := k, dropped := b.dropped + multiset(b.j.incidents.Keys - k.incidents.Keys))
  }

  /** Only saving may come between an observed absence and the create that answers it. */
  ghost predicate Enabled(s: Sys, a: Action) {
    match a
    case Restart => true
    case Prune(k) => Prunes(s.mem.j, k)
    case Commit => WithinLimits(s.mem.j)
    case Land(m) => s.landed[m] < s.creates[m]
    case Deliver(d, env) => s.progress.Idle? && CoversTables(env, s.mem.j, d.event)
    case NoteRun(id, record) => s.progress.Idle? && record.marker.None? && record.eventId.None?
        && record.unresolved.Some?
    case Cover(_) => s.progress.Idle?
    case FindPresent(m, _) =>
      s.progress.Idle? && (HasPhase(s.mem.j, m, Pending) || HasPhase(s.mem.j, m, Uncertain)) && s.landed[m] > 0
    case FindAbsent(m) => s.progress.Idle? && HasPhase(s.mem.j, m, Pending) && s.landed[m] == 0
    case Intend(m) => s.progress == SawAbsent(m) && HasPhase(s.mem.j, m, Pending)
    case Create(m) => s.progress == Recorded(m)
    case Learn(m, _) => s.progress.Idle? && HasPhase(s.mem.j, m, Uncertain) && s.landed[m] > 0
    case Move(m, phase, _) =>
      s.progress.Idle? && m in s.mem.j.incidents && !s.mem.j.incidents[m].closed
      && Rank(s.mem.j.incidents[m].phase) >= 2 && Rank(phase) >= Rank(s.mem.j.incidents[m].phase)
  }

  ghost function Effect(s: Sys, a: Action): Sys
    requires Enabled(s, a)
  {
    match a
    case Restart => s.(mem := s.disk, progress := Idle)
    case Deliver(d, env) => s.(mem := AfterDelivery(s.mem, d, env))
    case NoteRun(id, record) => s.(mem := s.mem.(j := s.mem.j.(runs := s.mem.j.runs[id := record])))
    case Prune(k) => s.(mem := Discarding(s.mem, k))
    case Commit => s.(disk := s.mem, progress := match s.progress case Intended(m) => Recorded(m) case p => p)
    case Cover(cursor) => s.(mem := s.mem.(j := s.mem.j.(discovery := Some(cursor))))
    case FindPresent(m, issue) =>
      s.(mem := WithIncident(s.mem, m, s.mem.j.incidents[m].(phase := Created, issueId := Some(issue))))
    case FindAbsent(m) => s.(progress := SawAbsent(m))
    case Intend(m) =>
      var inc := s.mem.j.incidents[m];
      s.(mem := WithIncident(s.mem, m, inc.(phase := Uncertain, attempts := inc.attempts + 1)), progress := Intended(m))
    case Create(m) => s.(creates := s.creates + multiset{m}, progress := Idle)
    case Learn(m, issue) =>
      s.(mem := WithIncident(s.mem, m, s.mem.j.incidents[m].(phase := Created, issueId := Some(issue))))
    case Land(m) => s.(landed := s.landed + multiset{m})
    case Move(m, phase, dirty) =>
      s.(mem := WithIncident(s.mem, m, s.mem.j.incidents[m].(phase := phase, metadataDirty := dirty)))
  }

  ghost function Run(s: Sys, actions: seq<Action>): Option<Sys> {
    if actions == [] then Some(s)
    else match Run(s, actions[..|actions| - 1])
      case None => None
      case Some(t) => var a := actions[|actions| - 1]; if Enabled(t, a) then Some(Effect(t, a)) else None
  }

  /** The run delivers only events of this set. */
  ghost predicate DeliversFrom(actions: seq<Action>, events: set<Event>) {
    forall a | a in actions && a.Deliver? :: a.delivery.event in events
  }

  // ---- the issue tracker -----------------------------------------------------------------------

  /** An incident with an issue has one that exists; a closed or created incident has an issue. */
  predicate IssueOk(inc: Incident, landed: nat) {
    && (inc.issueId.Some? ==> landed > 0)
    && (inc.closed ==> inc.issueId.Some?)
    && (Rank(inc.phase) >= 2 ==> inc.issueId.Some?)
  }

  /** Once created, a marker is past `pending` in this journal, or its issue is there to be found. */
  predicate PastCreate(j: Journal, m: Marker, landed: nat) {
    landed > 0 || (m in j.incidents && j.incidents[m].phase != Pending)
  }

  ghost predicate TrackerInv(j: Journal, creates: multiset<Marker>, landed: multiset<Marker>) {
    && (forall m | m in j.incidents :: IssueOk(j.incidents[m], landed[m]))
    && (forall m | m in creates :: PastCreate(j, m, landed[m]))
  }

  ghost predicate ProgressOk(s: Sys) {
    match s.progress
    case Idle => true
    case SawAbsent(m) => s.creates[m] == 0 && HasPhase(s.mem.j, m, Pending)
    case Intended(m) => s.creates[m] == 0 && HasPhase(s.mem.j, m, Uncertain)
    case Recorded(m) => s.creates[m] == 0 && HasPhase(s.mem.j, m, Uncertain) && HasPhase(s.disk.j, m, Uncertain)
  }

  ghost predicate CreateInv(s: Sys) {
    && (forall m :: s.creates[m] <= 1)
    && (forall m :: s.landed[m] <= s.creates[m])
    && TrackerInv(s.disk.j, s.creates, s.landed)
    && TrackerInv(s.mem.j, s.creates, s.landed)
    && ProgressOk(s)
  }

  /** The invariant of all runs that deliver from a lawful set. */
  ghost predicate SysInv(s: Sys, events: set<Event>) {
    && BookInv(s.disk) && BookInv(s.mem)
    && s.disk.delivered <= events && s.mem.delivered <= events
    && CreateInv(s)
  }

  // ---- what one delivery does to the lifecycle -------------------------------------------------

  predicate SameLife(a: Incident, b: Incident) {
    a.phase == b.phase && a.issueId == b.issueId && a.attempts == b.attempts
  }

  /** Incidents keep their lifecycle; an incident may be closed once it has an issue; a new marker
      starts pending and without an issue; an event is newly marked only by an incident at hand. */
  ghost predicate LivesOn(j: Journal, k: Journal) {
    && j.incidents.Keys <= k.incidents.Keys
    && (forall m | m in j.incidents :: SameLife(j.incidents[m], k.incidents[m])
                                       && (k.incidents[m].closed ==>
                                           j.incidents[m].closed || j.incidents[m].issueId.Some?))
    && (forall m | m in k.incidents && m !in j.incidents ::
          k.incidents[m].phase == Pending && k.incidents[m].issueId.None? && !k.incidents[m].closed)
    && (forall id | id in k.events && k.events[id].marker.Some? ::
          k.events[id].marker.value in k.incidents || (id in j.events && j.events[id].marker == k.events[id].marker))
  }

  lemma LivesOnTrans(i: Journal, j: Journal, k: Journal)
    requires LivesOn(i, j) && LivesOn(j, k)
    ensures LivesOn(i, k)
  {
  }

  lemma AdoptOneLives(j: Journal, m: Marker, e: Event, id: nat)
    requires m in j.incidents
    ensures LivesOn(j, Adopt(j, m, e, id))
  {
  }

  lemma {:induction false} AdoptLives(j: Journal, m: Marker, e: Event, ids: seq<nat>)
    requires m in j.incidents
    ensures LivesOn(j, AdoptAll(j, m, e, ids))
  {
    hide Adopt;
    if ids != [] {
      var before := AdoptAll(j, m, e, ids[..|ids| - 1]);
      AdoptLives(j, m, e, ids[..|ids| - 1]);
      AdoptOneLives(before, m, e, ids[|ids| - 1]);
      LivesOnTrans(j, before, AdoptAll(j, m, e, ids));
    }
  }

  lemma AdmitLives(j: Journal, m: Marker, d: Delivery, outcome: Outcome, now: int)
    requires m in j.incidents
    ensures LivesOn(j, Admit(j, m, d, outcome, now))
  {
  }

  lemma FoundLives(j: Journal, e: Event)
    requires Marker(e.group, e.eventId) !in j.incidents
    ensures LivesOn(j, Found(j, e))
  {
  }

  lemma RecoveryLives(j: Journal, marker: Option<Marker>, d: Delivery, now: int)
    ensures LivesOn(j, ProcessRecovery(j, marker, d, now).0)
  {
    hide LivesOn, Stored, Admit;
    StoredLives(j, d, None, RecoveryUnmatched, now);
    if marker.Some? && marker.value in j.incidents {
      AdmitLives(j, marker.value, d, StaleRecovery, now);
      AdmitLives(j, marker.value, d, RecoveryRecorded, now);
    }
  }

  lemma StoredLives(j: Journal, d: Delivery, marker: Option<Marker>, outcome: Outcome, now: int)
    requires marker.Some? ==> marker.value in j.incidents
    ensures LivesOn(j, Stored(j, d, marker, outcome, now))
  {
  }

  lemma OpeningLives(j: Journal, g: string, env: Env)
    ensures LivesOn(j, OpenIncident(j, g, env).0)
  {
  }

  lemma RepeatLives(j: Journal, k: Journal, e: Event)
    requires Repeats(j, k, e)
    ensures LivesOn(j, k)
  {
    hide Payloads;
  }

  lemma AgainLives(j: Journal, d: Delivery, env: Env)
    requires d.event.eventId in j.events
    ensures LivesOn(j, ProcessAgain(j, d, env).0)
  {
    hide ProcessAgain, Repeats, LivesOn;
    AgainRepeats(j, d, env);
    RepeatLives(j, ProcessAgain(j, d, env).0, d.event);
  }

  lemma HostedLives(j: Journal, m: Marker, d: Delivery, env: Env)
    requires m in j.incidents
    ensures LivesOn(j, AdoptAll(Admit(j, m, d, IncidentEvent, env.now), m, d.event, env.ids))
  {
    hide Admit, AdoptAll, LivesOn;
    var k := Admit(j, m, d, IncidentEvent, env.now);
    AdmitLives(j, m, d, IncidentEvent, env.now);
    assert m in k.incidents by {
      AdmitHosts(j, m, d, IncidentEvent, env.now);
    }
    AdoptLives(k, m, d.event, env.ids);
    LivesOnTrans(j, k, AdoptAll(k, m, d.event, env.ids));
  }

  lemma AdmitHosts(j: Journal, m: Marker, d: Delivery, outcome: Outcome, now: int)
    requires m in j.incidents
    ensures m in Admit(j, m, d, outcome, now).incidents
  {
  }

  lemma FoundingLives(j: Journal, d: Delivery, env: Env)
    requires Marker(d.event.group, d.event.eventId) !in j.incidents
    ensures var m := Marker(d.event.group, d.event.eventId);
            && LivesOn(j, Found(j, d.event))
            && LivesOn(j, AdoptAll(Admit(Found(j, d.event), m, d, IncidentEvent, env.now), m, d.event, env.ids))
  {
    hide AdoptAll;
    var m := Marker(d.event.group, d.event.eventId);
    FoundLives(j, d.event);
    HostedLives(Found(j, d.event), m, d, env);
    hide LivesOn;
    var k := Found(j, d.event);
    LivesOnTrans(j, k, AdoptAll(Admit(k, m, d, IncidentEvent, env.now), m, d.event, env.ids));
  }

  lemma StaysLiving(j: Journal)
    ensures LivesOn(j, j)
  {
  }

  /** What processing a fault may leave. */
  lemma FaultShapes(j: Journal, marker: Option<Marker>, d: Delivery, env: Env)
    requires marker.Some? ==> marker.value in j.incidents
    ensures var k := ProcessFault(j, marker, d, env).0; var m := Marker(d.event.group, d.event.eventId);
            || k == j
            || (marker.None? && k == Found(j, d.event))
            || (marker.None?
                && k == AdoptAll(Admit(Found(j, d.event), m, d, IncidentEvent, env.now), m, d.event, env.ids))
            || (marker.Some?
                && k == AdoptAll(Admit(j, marker.value, d, IncidentEvent, env.now), marker.value, d.event, env.ids))
  {
    hide Admit, AdoptAll;
  }

  lemma FaultLives(b: Book, marker: Option<Marker>, d: Delivery, env: Env)
    requires BookInv(b) && SenderLaw(b.delivered + {d.event})
    requires Answers(b.j, d.event.group, marker) && CoversTables(env, b.j, d.event)
    requires FirstClosed(b.j, d.event, env.markers).None?
    ensures LivesOn(b.j, ProcessFault(b.j, marker, d, env).0)
  {
    BookParts(b);
    StaysLiving(b.j);
    FaultShapes(b.j, marker, d, env);
    hide BookInv, Admit, AdoptAll, LivesOn, Structural, ProcessFault;
    if marker.None? {
      MarkerIsNew(b.j, b.delivered, d.event, env.markers);
      FoundingLives(b.j, d, env);
    } else {
      HostedLives(b.j, marker.value, d, env);
    }
  }

  lemma FirstLives(b: Book, d: Delivery, env: Env)
    requires BookInv(b) && SenderLaw(b.delivered + {d.event}) && ReachesOpening(b.j, d)
             && CoversTables(env, b.j, d.event)
    ensures LivesOn(b.j, ProcessFirst(b.j, d, env).0)
  {
    hide BookInv, OpenIncident, AfterOpening, LivesOn;
    var g := d.event.group;
    OpeningKeeps(b, g, env);
    BookParts(b);
    OpeningAnswers(b.j, b.delivered, g, env);
    OpeningLives(b.j, g, env);
    OpenedLives(b, g, d, env);
  }

  lemma OpenedLives(b: Book, g: string, d: Delivery, env: Env)
    requires BookInv(AfterOpening(b, g, env)) && SenderLaw(b.delivered + {d.event}) && g == d.event.group
    requires var (k, r) := OpenIncident(b.j, g, env);
             && (r.Done? ==> Answers(k, g, r.value)) && LivesOn(b.j, k)
             && k.events == b.j.events && k.incidents.Keys == b.j.incidents.Keys
    requires CoversTables(env, b.j, d.event)
    ensures LivesOn(b.j, ProcessFirst(b.j, d, env).0)
  {
    hide BookInv, OpenIncident, ProcessFault, ProcessRecovery, LivesOn, Stored;
    var c := AfterOpening(b, g, env);
    var r := OpenIncident(b.j, g, env).1;
    if r.Done? {
      var closed := FirstClosed(c.j, d.event, env.markers);
      if closed.Some? {
        StoredLives(c.j, d, closed, ClosedEpisodeObservation, env.now);
      } else if d.event.kind == Recovery {
        RecoveryLives(c.j, r.value, d, env.now);
      } else {
        FaultLives(c, r.value, d, env);
      }
      LivesOnTrans(b.j, c.j, ProcessFirst(b.j, d, env).0);
    }
  }

  lemma DeliveryLives(b: Book, d: Delivery, env: Env)
    requires BookInv(b) && SenderLaw(b.delivered + {d.event}) && CoversTables(env, b.j, d.event)
    ensures LivesOn(b.j, Process(b.j, d, env).0)
  {
    hide BookInv, ProcessFirst, ProcessAgain;
    if ReachesOpening(b.j, d) {
      FirstLives(b, d, env);
    } else if !RunConflict(b.j, d) {
      AgainLives(b.j, d, env);
    }
  }

  // ---- the books over the other steps ----------------------------------------------------------

  predicate SameAccounts(a: Incident, b: Incident) {
    a.group == b.group && a.episodes == b.episodes && a.eventCount == b.eventCount && a.lastEventAt == b.lastEventAt
        && a.closed == b.closed
  }

  /** Lifecycle fields, runs and cursor are outside the accounts. */
  ghost predicate SameBooks(j: Journal, k: Journal) {
    && k.events == j.events && k.open == j.open && k.incidents.Keys == j.incidents.Keys
    && (forall m | m in j.incidents :: SameAccounts(j.incidents[m], k.incidents[m]))
  }

  lemma SameBooksStructure(j: Journal, k: Journal, delivered: set<Event>)
    requires Structural(j, delivered) && SameBooks(j, k)
    ensures Structural(k, delivered)
  {
    forall m | m in k.incidents
      ensures IncidentOk(k, delivered, m)
    {
      assert IncidentOk(j, delivered, m);
    }
    forall g | g in k.open
      ensures OpenOk(k, g)
    {
      assert OpenOk(j, g);
    }
    forall id | id in k.events
      ensures EventOk(k, delivered, id)
    {
      assert EventOk(j, delivered, id);
    }
  }

  lemma SameBooksExact(b: Book, k: Journal)
    requires AllExact(b) && SameBooks(b.j, k)
    ensures AllExact(b.(j := k))
  {
    forall m | m in k.incidents
      ensures ExactAt(b.(j := k), m)
    {
      assert ExactAt(b, m);
      PayloadsSame(b.j, k, m);
    }
  }

  lemma SameBooksKept(b: Book, k: Journal)
    requires AllKept(b) && SameBooks(b.j, k)
    ensures AllKept(b.(j := k))
  {
    forall n | n !in b.settled
      ensures Kept(b.(j := k), n)
    {
      assert Kept(b, n);
      forall id | id in k.events && k.events[id].payload.episodeId == n
        ensures MarkedOpen(k, k.events[id])
      {
        assert MarkedOpen(b.j, b.j.events[id]);
      }
    }
    StainsStay(b, b.(j := k));
  }

  lemma SameBooksUnmatched(j: Journal, k: Journal)
    requires AllUnmatched(j) && SameBooks(j, k)
    ensures AllUnmatched(k)
  {
    forall id | id in k.events
      ensures Unmatched(k, k.events[id])
    {
      assert Unmatched(j, j.events[id]);
    }
  }

  lemma SameBooksKeep(b: Book, k: Journal)
    requires BookInv(b) && SameBooks(b.j, k)
    ensures BookInv(b.(j := k))
  {
    assert AllSourced(k, b.delivered) by {
      SameEpisodesSourced(b.j, k, b.delivered, b.delivered);
    }
    hide Structural, AllSourced, AllExact, AllKept, AllUnmatched, SameBooks;
    SameBooksStructure(b.j, k, b.delivered);
    SameBooksExact(b, k);
    SameBooksKept(b, k);
    SameBooksUnmatched(b.j, k);
  }

  // ---- the tracker over every step -------------------------------------------------------------

  lemma TrackerAfterDelivery(j: Journal, k: Journal, creates: multiset<Marker>, landed: multiset<Marker>)
    requires TrackerInv(j, creates, landed) && LivesOn(j, k)
    ensures TrackerInv(k, creates, landed)
  {
    forall m | m in k.incidents
      ensures IssueOk(k.incidents[m], landed[m])
    {
      if m in j.incidents {
        assert IssueOk(j.incidents[m], landed[m]);
      }
    }
    forall m | m in creates
      ensures PastCreate(k, m, landed[m])
    {
      assert PastCreate(j, m, landed[m]);
    }
  }

  lemma TrackerAfterPruning(j: Journal, k: Journal, creates: multiset<Marker>, landed: multiset<Marker>)
    requires TrackerInv(j, creates, landed) && DropsClosed(j.incidents, k.incidents)
    ensures TrackerInv(k, creates, landed)
  {
    forall m | m in k.incidents
      ensures IssueOk(k.incidents[m], landed[m])
    {
      assert IssueOk(j.incidents[m], landed[m]);
    }
    forall m | m in creates
      ensures PastCreate(k, m, landed[m])
    {
      assert PastCreate(j, m, landed[m]);
      if m in j.incidents && m !in k.incidents {
        assert IssueOk(j.incidents[m], landed[m]);
      }
    }
  }

  lemma TrackerAfterChange(j: Journal, m: Marker, inc: Incident, creates: multiset<Marker>, landed: multiset<Marker>)
    requires TrackerInv(j, creates, landed) && m in j.incidents
    requires IssueOk(inc, landed[m]) && inc.phase != Pending
    ensures TrackerInv(j.(incidents := j.incidents[m := inc]), creates, landed)
  {
    var k := j.(incidents := j.incidents[m := inc]);
    forall n | n in creates
      ensures PastCreate(k, n, landed[n])
    {
      assert PastCreate(j, n, landed[n]);
    }
  }

  lemma TrackerAfterLanding(j: Journal, m: Marker, creates: multiset<Marker>, landed: multiset<Marker>)
    requires TrackerInv(j, creates, landed)
    ensures TrackerInv(j, creates, landed + multiset{m})
  {
    forall n | n in j.incidents
      ensures IssueOk(j.incidents[n], (landed + multiset{m})[n])
    {
      assert IssueOk(j.incidents[n], landed[n]);
    }
    forall n | n in creates
      ensures PastCreate(j, n, (landed + multiset{m})[n])
    {
      assert PastCreate(j, n, landed[n]);
    }
  }

  lemma TrackerAfterCreate(j: Journal, m: Marker, creates: multiset<Marker>, landed: multiset<Marker>)
    requires TrackerInv(j, creates, landed) && HasPhase(j, m, Uncertain)
    ensures TrackerInv(j, creates + multiset{m}, landed)
  {
  }

  lemma DeliverKeepsCreate(s: Sys, d: Delivery, env: Env)
    requires BookInv(s.mem) && CreateInv(s) && Enabled(s, Deliver(d, env)) && SenderLaw(s.mem.delivered + {d.event})
    ensures CreateInv(Effect(s, Deliver(d, env)))
  {
    hide BookInv, TrackerInv, Process;
    DeliveryLives(s.mem, d, env);
    TrackerAfterDelivery(s.mem.j, Process(s.mem.j, d, env).0, s.creates, s.landed);
  }

  lemma PruneKeepsCreate(s: Sys, k: Journal)
    requires CreateInv(s) && Prunes(s.mem.j, k)
    ensures CreateInv(Effect(s, Prune(k)))
  {
    hide TrackerInv, PinnedRuns, PinnedEvents, PinnedInputs;
    TrackerAfterPruning(s.mem.j, k, s.creates, s.landed);
  }

  /** Seeing no issue under a pending incident proves that no create was ever issued for it. */
  lemma AbsenceMeansNeverCreated(s: Sys, m: Marker)
    requires CreateInv(s) && Enabled(s, FindAbsent(m))
    ensures s.creates[m] == 0
  {
    assert m in s.creates ==> PastCreate(s.mem.j, m, s.landed[m]);
  }

  lemma CreateKeepsCreate(s: Sys, m: Marker)
    requires CreateInv(s) && Enabled(s, Create(m))
    ensures CreateInv(Effect(s, Create(m)))
  {
    hide TrackerInv;
    TrackerAfterCreate(s.mem.j, m, s.creates, s.landed);
    TrackerAfterCreate(s.disk.j, m, s.creates, s.landed);
  }

  lemma LandKeepsCreate(s: Sys, m: Marker)
    requires CreateInv(s) && Enabled(s, Land(m))
    ensures CreateInv(Effect(s, Land(m)))
  {
    hide TrackerInv;
    TrackerAfterLanding(s.mem.j, m, s.creates, s.landed);
    TrackerAfterLanding(s.disk.j, m, s.creates, s.landed);
  }

  lemma TrackerAt(j: Journal, m: Marker, creates: multiset<Marker>, landed: multiset<Marker>)
    requires TrackerInv(j, creates, landed) && m in j.incidents
    ensures IssueOk(j.incidents[m], landed[m])
  {
  }

  lemma ChangeKeepsCreate(s: Sys, a: Action)
    requires CreateInv(s) && Enabled(s, a) && (a.FindPresent? || a.Intend? || a.Learn? || a.Move?)
    ensures CreateInv(Effect(s, a))
  {
    var m := a.marker;
    var inc := Effect(s, a).mem.j.incidents[m];
    TrackerAt(s.mem.j, m, s.creates, s.landed);
    hide TrackerInv;
    TrackerAfterChange(s.mem.j, m, inc, s.creates, s.landed);
  }

  // ---- all runs --------------------------------------------------------------------------------

  lemma StepKeepsCreate(s: Sys, a: Action)
    requires BookInv(s.mem) && CreateInv(s) && Enabled(s, a)
    requires a.Deliver? ==> SenderLaw(s.mem.delivered + {a.delivery.event})
    ensures CreateInv(Effect(s, a))
  {
    match a {
      case Deliver(d, env) => DeliverKeepsCreate(s, d, env);
      case Prune(k) => PruneKeepsCreate(s, k);
      case FindAbsent(m) => AbsenceMeansNeverCreated(s, m);
      case Create(m) => CreateKeepsCreate(s, m);
      case Land(m) => LandKeepsCreate(s, m);
      case FindPresent(_, _) => ChangeKeepsCreate(s, a);
      case Intend(_) => ChangeKeepsCreate(s, a);
      case Learn(_, _) => ChangeKeepsCreate(s, a);
      case Move(_, _, _) => ChangeKeepsCreate(s, a);
      case _ =>
    }
  }

  lemma StepKeepsBooks(s: Sys, a: Action)
    requires BookInv(s.mem) && BookInv(s.disk) && Enabled(s, a)
    requires a.Deliver? ==> SenderLaw(s.mem.delivered + {a.delivery.event})
    ensures BookInv(Effect(s, a).mem) && BookInv(Effect(s, a).disk)
  {
    hide BookInv;
    if a.Deliver? {
      hide AfterDelivery;
      DeliveryKeeps(s.mem, a.delivery, a.env);
    } else if a.Prune? {
      PruningKeeps(s.mem, a.left);
      DroppedIsOutside(s.mem.(j := a.left), Effect(s, a).mem.dropped);
    } else {
      var k := Effect(s, a).mem.j;
      if a.NoteRun? || a.Cover? || a.FindPresent? || a.Intend? || a.Learn? || a.Move? {
        assert SameBooks(s.mem.j, k);
        SameBooksKeep(s.mem, k);
      }
    }
  }

  lemma StepKeepsInv(s: Sys, a: Action, events: set<Event>)
    requires SysInv(s, events) && Enabled(s, a) && SenderLaw(events)
    requires a.Deliver? ==> a.delivery.event in events
    ensures SysInv(Effect(s, a), events)
  {
    hide BookInv, CreateInv;
    if a.Deliver? {
      assert s.mem.delivered + {a.delivery.event} <= events;
    }
    StepKeepsBooks(s, a);
    StepKeepsCreate(s, a);
  }

  lemma InitialInv(events: set<Event>)
    ensures SysInv(INITIAL, events)
  {
    EmptyBookInv();
  }

  /** Every state of every run that delivers from a lawful set satisfies the invariant. */
  lemma {:induction false} RunKeepsInv(actions: seq<Action>, events: set<Event>)
    requires SenderLaw(events) && DeliversFrom(actions, events) && Run(INITIAL, actions).Some?
    ensures SysInv(Run(INITIAL, actions).value, events)
  {
    hide SysInv;
    if actions == [] {
      InitialInv(events);
    } else {
      var before := actions[..|actions| - 1];
      RunKeepsInv(before, events);
      StepKeepsInv(Run(INITIAL, before).value, actions[|actions| - 1], events);
    }
  }
}
