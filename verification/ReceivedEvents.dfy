/** What a first delivery does to the journal, told on the tables before and after: an event of an episode
    that a closed incident lists is only noted there, a recovery goes to the open incident that lists its
    episode or waits, and a fault joins the open incident or founds one and is joined by what waited. */
module ReceivedEvents {
  import opened HealthEvents
  import opened IncidentJournal
  import opened IncidentInvariant
  import opened IncidentDelivery
  import opened IncidentPruning
  import opened IncidentRuns
  import opened IncidentTheorems

  // ---- one episode, one incident of its group --------------------------------------------------

  /** No two incidents of a group list the same episode. */
  ghost predicate Apart(j: Journal) {
    forall m, n | m in j.incidents && n in j.incidents && m != n && j.incidents[m].group == j.incidents[n].group ::
      j.incidents[m].episodes.Keys !! j.incidents[n].episodes.Keys
  }

  /** Incidents of `k` but for this one list no more than they did in `j`. */
  ghost predicate ListsBut(j: Journal, k: Journal, host: Option<Marker>) {
    forall m | m in k.incidents && Some(m) != host ::
      && m in j.incidents && k.incidents[m].group == j.incidents[m].group
      && k.incidents[m].episodes.Keys <= j.incidents[m].episodes.Keys
  }

  /** The one incident that may list one episode more. */
  ghost predicate HostLists(j: Journal, k: Journal, m: Marker, e: Event) {
    && m in k.incidents && k.incidents[m].group == e.group
    && k.incidents[m].episodes.Keys <= (if m in j.incidents then j.incidents[m].episodes.Keys else {}) + {e.episodeId}
    && (m in j.incidents ==> j.incidents[m].group == e.group)
  }

  lemma FewerStayApart(j: Journal, k: Journal)
    requires Apart(j) && ListsBut(j, k, None)
    ensures Apart(k)
  {
    forall m, n | m in k.incidents && n in k.incidents && m != n && k.incidents[m].group == k.incidents[n].group
      ensures k.incidents[m].episodes.Keys !! k.incidents[n].episodes.Keys
    {
      assert j.incidents[m].episodes.Keys !! j.incidents[n].episodes.Keys;
    }
  }

  lemma HostStaysApart(j: Journal, k: Journal, m: Marker, e: Event)
    requires Apart(j) && ListsBut(j, k, Some(m)) && HostLists(j, k, m, e)
    requires forall n | n in j.incidents && n != m && j.incidents[n].group == e.group ::
               e.episodeId !in j.incidents[n].episodes
    ensures Apart(k)
  {
    forall n, o | n in k.incidents && o in k.incidents && n != o && k.incidents[n].group == k.incidents[o].group
      ensures k.incidents[n].episodes.Keys !! k.incidents[o].episodes.Keys
    {
      assert n in j.incidents && o in j.incidents ==>
          j.incidents[n].episodes.Keys !! j.incidents[o].episodes.Keys;
    }
  }

  lemma ListsTrans(i: Journal, j: Journal, k: Journal, host: Option<Marker>)
    requires ListsBut(i, j, host) && ListsBut(j, k, host)
    ensures ListsBut(i, k, host)
  {
  }

  lemma {:induction false} AdoptLists(j: Journal, m: Marker, e: Event, ids: seq<nat>)
    requires m in j.incidents
    ensures ListsBut(j, AdoptAll(j, m, e, ids), None)
  {
    if ids != [] {
      AdoptLists(j, m, e, ids[..|ids| - 1]);
      AdoptOneLists(AdoptAll(j, m, e, ids[..|ids| - 1]), m, e, ids[|ids| - 1]);
      hide Adopt;
      ListsTrans(j, AdoptAll(j, m, e, ids[..|ids| - 1]), AdoptAll(j, m, e, ids), None);
    }
  }

  lemma AdoptOneLists(j: Journal, m: Marker, e: Event, id: nat)
    requires m in j.incidents
    ensures ListsBut(j, Adopt(j, m, e, id), None)
  {
  }

  lemma JoiningLists(j: Journal, m: Marker, d: Delivery, env: Env)
    requires m in j.incidents && j.incidents[m].group == d.event.group
    ensures var k := AdoptAll(Admit(j, m, d, IncidentEvent, env.now), m, d.event, env.ids);
            ListsBut(j, k, Some(m)) && HostLists(j, k, m, d.event)
  {
    var k := Admit(j, m, d, IncidentEvent, env.now);
    assert ListsBut(j, k, Some(m)) && HostLists(j, k, m, d.event);
    AdoptLists(k, m, d.event, env.ids);
    hide Admit, AdoptAll;
  }

  lemma FoundingLists(j: Journal, d: Delivery, env: Env)
    requires Marker(d.event.group, d.event.eventId) !in j.incidents
    ensures var m := Marker(d.event.group, d.event.eventId);
            var k := AdoptAll(Admit(Found(j, d.event), m, d, IncidentEvent, env.now), m, d.event, env.ids);
            ListsBut(j, k, Some(m)) && HostLists(j, k, m, d.event)
  {
    JoiningLists(Found(j, d.event), Marker(d.event.group, d.event.eventId), d, env);
    hide Admit, AdoptAll;
  }

  /** Where no closed incident lists the episode, only the open one can. */
  lemma OnlyHostLists(j: Journal, delivered: set<Event>, e: Event, markers: seq<Marker>, n: Marker)
    requires Structural(j, delivered) && FirstClosed(j, e, markers).None?
    requires forall m | m in j.incidents :: m in markers
    requires n in j.incidents && j.incidents[n].group == e.group && e.episodeId in j.incidents[n].episodes
    ensures e.group in j.open && j.open[e.group] == n
  {
    assert !HoldsClosed(j, n, e);
    assert IncidentOk(j, delivered, n);
  }

  /** The fault lists its episode in the incident answered, or in the new one. */
  lemma FaultLists(c: Book, marker: Option<Marker>, d: Delivery, env: Env)
    requires BookInv(c) && SenderLaw(c.delivered + {d.event}) && CoversTables(env, c.j, d.event)
    requires Answers(c.j, d.event.group, marker) && FirstClosed(c.j, d.event, env.markers).None?
    requires d.event.eventId !in c.j.events && d.event.kind != Recovery
    ensures var (k, r) := ProcessFault(c.j, marker, d, env);
            var m := if marker.Some? then marker.value else Marker(d.event.group, d.event.eventId);
            k == c.j || (ListsBut(c.j, k, Some(m)) && HostLists(c.j, k, m, d.event))
  {
    hide BookInv, ListsBut, HostLists, AdoptAll, Admit, CoversTables;
    BookParts(c);
    FaultKeeps(c, marker, d, env);
    if marker.Some? {
      AnsweredGroup(c.j, c.delivered, d.event.group);
      JoiningLists(c.j, marker.value, d, env);
    } else {
      hide Structural;
      NewMarker(c, d, env);
      FoundingLists(c.j, d, env);
    }
  }

  lemma NewMarker(c: Book, d: Delivery, env: Env)
    requires BookInv(c) && SenderLaw(c.delivered + {d.event}) && CoversTables(env, c.j, d.event)
    requires d.event.group !in c.j.open && FirstClosed(c.j, d.event, env.markers).None?
    ensures Marker(d.event.group, d.event.eventId) !in c.j.incidents
  {
    BookParts(c);
    MarkerIsNew(c.j, c.delivered, d.event, env.markers);
  }

  lemma FaultStaysApart(c: Book, marker: Option<Marker>, d: Delivery, env: Env)
    requires BookInv(c) && SenderLaw(c.delivered + {d.event}) && CoversTables(env, c.j, d.event)
    requires Answers(c.j, d.event.group, marker) && FirstClosed(c.j, d.event, env.markers).None?
    requires d.event.eventId !in c.j.events && d.event.kind != Recovery
    requires Apart(c.j)
    ensures Apart(ProcessFault(c.j, marker, d, env).0)
  {
    hide BookInv, ProcessFault, Apart, Structural, ListsBut, HostLists, FirstClosed;
    BookParts(c);
    FaultLists(c, marker, d, env);
    var m := if marker.Some? then marker.value else Marker(d.event.group, d.event.eventId);
    forall n | n in c.j.incidents && n != m && c.j.incidents[n].group == d.event.group
      ensures d.event.episodeId !in c.j.incidents[n].episodes
    {
      if d.event.episodeId in c.j.incidents[n].episodes {
        OnlyHostLists(c.j, c.delivered, d.event, env.markers, n);
      }
    }
    var k := ProcessFault(c.j, marker, d, env).0;
    if k != c.j {
      HostStaysApart(c.j, k, m, d.event);
    }
  }

  lemma AnsweredGroup(j: Journal, delivered: set<Event>, g: string)
    requires Structural(j, delivered)
    ensures g in j.open ==>
              j.open[g] in j.incidents && j.incidents[j.open[g]].group == g && !j.incidents[j.open[g]].closed
  {
    assert g in j.open ==> OpenOk(j, g);
  }

  lemma RecoveryLists(j: Journal, marker: Option<Marker>, d: Delivery, now: int)
    requires d.event.kind == Recovery
    ensures ListsBut(j, ProcessRecovery(j, marker, d, now).0, None)
  {
  }

  lemma OpeningLists(j: Journal, g: string, env: Env)
    ensures ListsBut(j, OpenIncident(j, g, env).0, None)
  {
  }

  lemma StoredLists(j: Journal, d: Delivery, marker: Option<Marker>, outcome: Outcome, now: int)
    ensures ListsBut(j, Stored(j, d, marker, outcome, now), None)
  {
  }

  lemma AgainLists(j: Journal, d: Delivery, env: Env)
    requires d.event.eventId in j.events
    ensures ListsBut(j, ProcessAgain(j, d, env).0, None)
  {
    hide ProcessAgain;
    AgainOnTables(j, d, env);
  }

  lemma FirstStaysApart(b: Book, d: Delivery, env: Env)
    requires BookInv(b) && SenderLaw(b.delivered + {d.event}) && CoversTables(env, b.j, d.event)
    requires d.event.eventId !in b.j.events && Apart(b.j)
    ensures Apart(ProcessFirst(b.j, d, env).0)
  {
    hide BookInv, OpenIncident, ProcessFault, ProcessRecovery, Stored, Apart, ListsBut, Structural, FirstClosed;
    var g := d.event.group;
    BookParts(b);
    OpeningKeeps(b, g, env);
    OpeningAnswers(b.j, b.delivered, g, env);
    OpeningLists(b.j, g, env);
    var (k, r) := OpenIncident(b.j, g, env);
    var c := AfterOpening(b, g, env);
    FewerStayApart(b.j, k);
    if r.Done? {
      var closed := FirstClosed(k, d.event, env.markers);
      if closed.Some? {
        StoredLists(k, d, closed, ClosedEpisodeObservation, env.now);
        FewerStayApart(k, ProcessFirst(b.j, d, env).0);
      } else if d.event.kind == Recovery {
        RecoveryLists(k, r.value, d, env.now);
        FewerStayApart(k, ProcessFirst(b.j, d, env).0);
      } else {
        FaultStaysApart(c, r.value, d, env);
      }
    }
  }

  lemma DeliveryStaysApart(b: Book, d: Delivery, env: Env)
    requires BookInv(b) && SenderLaw(b.delivered + {d.event}) && CoversTables(env, b.j, d.event) && Apart(b.j)
    ensures Apart(Process(b.j, d, env).0)
  {
    hide BookInv, ProcessFirst, ProcessAgain, Apart, CoversTables, SenderLaw;
    if !RunConflict(b.j, d) {
      if d.event.eventId in b.j.events {
        AgainLists(b.j, d, env);
        FewerStayApart(b.j, Process(b.j, d, env).0);
      } else {
        FirstStaysApart(b, d, env);
      }
    }
  }

  lemma PruningLists(j: Journal, k: Journal)
    requires Prunes(j, k)
    ensures ListsBut(j, k, None)
  {
    hide PinnedRuns, PinnedEvents, PinnedInputs;
  }

  lemma StepStaysApart(s: Sys, a: Action, events: set<Event>)
    requires SysInv(s, events) && SenderLaw(events) && Enabled(s, a) && (a.Deliver? ==> a.delivery.event in events)
    requires Apart(s.mem.j) && Apart(s.disk.j)
    ensures Apart(Effect(s, a).mem.j) && Apart(Effect(s, a).disk.j)
  {
    hide BookInv, CreateInv, Apart, CoversTables, Prunes, AfterDelivery, ListsBut;
    if a.Deliver? {
      assert s.mem.delivered + {a.delivery.event} <= events;
      DeliveryStaysApart(s.mem, a.delivery, a.env);
      DeliveredJournal(s.mem, a.delivery, a.env);
    } else if a.Prune? {
      PruningLists(s.mem.j, a.left);
      FewerStayApart(s.mem.j, a.left);
    } else if !a.Restart? {
      QuietLists(s, a);
      FewerStayApart(s.mem.j, Effect(s, a).mem.j);
    }
  }

  lemma DeliveredJournal(b: Book, d: Delivery, env: Env)
    ensures AfterDelivery(b, d, env).j == Process(b.j, d, env).0
  {
  }

  lemma QuietLists(s: Sys, a: Action)
    requires Enabled(s, a) && !a.Restart? && !a.Deliver? && !a.Prune?
    ensures ListsBut(s.mem.j, Effect(s, a).mem.j, None)
  {
    hide CoversTables, Prunes, AfterDelivery;
  }

  lemma {:induction false} RunStaysApart(actions: seq<Action>, events: set<Event>)
    requires SenderLaw(events) && DeliversFrom(actions, events) && Run(INITIAL, actions).Some?
    ensures var s := Run(INITIAL, actions).value; Apart(s.mem.j) && Apart(s.disk.j)
  {
    hide SysInv, Effect, Enabled, Apart;
    if actions == [] {
      NothingIsApart();
    } else {
      var before := actions[..|actions| - 1];
      RunStaysApart(before, events);
      RunKeepsInv(before, events);
      StepStaysApart(Run(INITIAL, before).value, actions[|actions| - 1], events);
    }
  }

  lemma NothingIsApart()
    ensures Apart(EMPTY_JOURNAL)
  {
  }

  /** In every state of every run, an episode is listed by at most one incident of its group. */
  lemma OneIncidentPerEpisode(s: Sys, events: set<Event>, m: Marker, n: Marker, k: nat)
    requires SenderLaw(events) && Reachable(s, events)
    requires m in s.mem.j.incidents && k in s.mem.j.incidents[m].episodes
    requires n in s.mem.j.incidents && k in s.mem.j.incidents[n].episodes
    requires s.mem.j.incidents[m].group == s.mem.j.incidents[n].group
    ensures m == n
  {
    ReachableIsApart(s, events);
  }

  lemma ReachableIsApart(s: Sys, events: set<Event>)
    requires SenderLaw(events) && Reachable(s, events)
    ensures Apart(s.mem.j)
  {
    hide Apart, Run;
    var actions :| DeliversFrom(actions, events) && Run(INITIAL, actions) == Some(s);
    RunStaysApart(actions, events);
  }

  // ---- what a first delivery finds -------------------------------------------------------------

  /** Maintenance closed the issue of the group's open incident. */
  predicate MaintenanceCloses(j: Journal, g: string, env: Env) {
    && g in j.open && j.open[g] in j.incidents
    && j.incidents[j.open[g]].issueId.Some? && env.issueClosed == Some(true)
  }

  /** The journal once that closing is noted. */
  function Maintained(j: Journal, g: string, env: Env): Journal {
    if !MaintenanceCloses(j, g, env) then j
    else
      var m := j.open[g];
      j.(incidents := j.incidents[m := j.incidents[m].(closed := true)], open := j.open - {g})
  }

  /** The open incident of the group, unless maintenance closed it. */
  function Current(j: Journal, g: string, env: Env): Option<Marker> {
    if g in j.open && !MaintenanceCloses(j, g, env) then Some(j.open[g]) else None
  }

  /** Some incident of the event's group lists its episode and is closed by now. */
  predicate SettledIn(j: Journal, e: Event, env: Env, m: Marker) {
    && m in j.incidents && j.incidents[m].group == e.group && e.episodeId in j.incidents[m].episodes
    && (j.incidents[m].closed || (MaintenanceCloses(j, e.group, env) && m == j.open[e.group]))
  }

  ghost predicate Unsettled(j: Journal, e: Event, env: Env) {
    forall m :: !SettledIn(j, e, env, m)
  }

  /** The tracker and the saved authority answer for the group's open incident, and the run, if it is known
      already, does not stand for another event. */
  predicate Heeded(j: Journal, d: Delivery, env: Env) {
    && (d.event.group in j.open && j.open[d.event.group] in j.incidents ==>
          && env.authorized
          && (j.incidents[j.open[d.event.group]].issueId.Some? ==> env.issueClosed.Some?))
    && (d.run.id.Some? && d.run.id.value in j.runs && j.runs[d.run.id.value].eventId.Some? ==>
          j.runs[d.run.id.value].eventId == Some(d.event.eventId))
  }

  /** What is in question about a delivery: its run was not observed, or neither admitted nor refused. */
  function Question(d: Delivery): Option<Reason> {
    match d.run.id
    case None => Some(OriginalRunUnobserved)
    case Some(_) => if d.run.admission == RunUnverified then Some(OriginalAdmissionUnverified) else None
  }

  /** The event's record, and its run's if there is one, are added; inputs and cursor stay. */
  predicate Notes(j: Journal, k: Journal, d: Delivery, marker: Option<Marker>, outcome: Outcome, now: int) {
    && k.events == j.events[d.event.eventId :=
         EventRecord(d.run.id, marker, d.event, d.run, d.origin, d.bytes, Question(d), now)]
    && k.runs == (match d.run.id
                  case None => j.runs
                  case Some(id) =>
                    j.runs[id := RunRecord(Some(d.event.eventId), marker, outcome, Question(d), now, d.run)])
    && k.inputs == j.inputs && k.discovery == j.discovery
  }

  /** Of the obligations only these go, and what the run owed; only these come, and what is in question about
      the delivery. */
  ghost predicate Owes(j: Journal, k: Journal, d: Delivery, less: set<Obligation>, more: set<Obligation>) {
    && (forall o | o in Obligations(k) && o !in Obligations(j) && o !in more ::
          && Question(d).Some?
          && (o == OfEvent(d.event.eventId, Question(d).value)
              || (d.run.id.Some? && o == OfRun(d.run.id.value, Question(d).value))))
    && (forall o | o in Obligations(j) && o !in Obligations(k) && o !in less :: o.OfRun? && d.run.id == Some(o.id))
    && more <= Obligations(k) && less !! Obligations(k)
  }

  /** `b` is `a` with these events counted, dated and still to be indexed. */
  ghost predicate Grew(a: Incident, b: Incident, es: set<Event>, episodes: map<nat, Episode>) {
    && b == a.(episodes := episodes, eventCount := a.eventCount + |es|, lastEventAt := b.lastEventAt,
               metadataDirty := true)
    && b.lastEventAt.Some? && (a.lastEventAt.Some? ==> a.lastEventAt.value <= b.lastEventAt.value)
    && (forall e | e in es :: e.occurredAt <= b.lastEventAt.value)
    && (b.lastEventAt == a.lastEventAt || exists e :: e in es && b.lastEventAt == Some(e.occurredAt))
  }

  // ---- opening and the holder ------------------------------------------------------------------

  lemma OpeningIsMaintenance(j: Journal, delivered: set<Event>, g: string, env: Env)
    requires Structural(j, delivered)
    ensures var (k, r) := OpenIncident(j, g, env);
            r.Done? ==> k == Maintained(j, g, env) && r.value == Current(j, g, env)
    ensures OpenIncident(j, g, env).1.Done? <==>
            (g in j.open && j.open[g] in j.incidents ==>
               env.authorized && (j.incidents[j.open[g]].issueId.Some? ==> env.issueClosed.Some?))
  {
    AnsweredGroup(j, delivered, g);
  }

  /** The closed incident that lists the episode is the one found, in any iteration order. */
  lemma HolderIsFound(k: Journal, e: Event, markers: seq<Marker>, m: Marker)
    requires Apart(k) && HoldsClosed(k, m, e) && m in markers
    ensures FirstClosed(k, e, markers) == Some(m)
  {
    assert FirstClosed(k, e, markers).Some?;
  }

  lemma SettledIsHeld(j: Journal, e: Event, env: Env, m: Marker)
    ensures SettledIn(j, e, env, m) <==> HoldsClosed(Maintained(j, e.group, env), m, e)
  {
  }

  lemma UnsettledIsNotHeld(j: Journal, e: Event, env: Env)
    requires Unsettled(j, e, env)
    ensures FirstClosed(Maintained(j, e.group, env), e, env.markers).None?
  {
    var found := FirstClosed(Maintained(j, e.group, env), e, env.markers);
    if found.Some? {
      SettledIsHeld(j, e, env, found.value);
    }
  }

  lemma MaintainedKeys(j: Journal, g: string, env: Env)
    ensures var k := Maintained(j, g, env);
            && k.incidents.Keys == j.incidents.Keys && k.events == j.events && k.runs == j.runs
            && k.inputs == j.inputs && k.discovery == j.discovery
  {
  }

  /** Everything a first delivery that is heeded starts from. */
  lemma Starts(s: Sys, events: set<Event>, d: Delivery, env: Env)
    requires SenderLaw(events) && Reachable(s, events) && d.event in events && Enabled(s, Deliver(d, env))
    requires d.event.eventId !in s.mem.j.events && Heeded(s.mem.j, d, env)
    ensures var c := AfterOpening(s.mem, d.event.group, env);
            && c.j == Maintained(s.mem.j, d.event.group, env) && Apart(c.j) && BookInv(c)
            && c.delivered == s.mem.delivered && SenderLaw(c.delivered + {d.event})
            && CoversTables(env, c.j, d.event)
            && Answers(c.j, d.event.group, Current(s.mem.j, d.event.group, env))
    ensures Process(s.mem.j, d, env) == ProcessFirst(s.mem.j, d, env)
    ensures OpenIncident(s.mem.j, d.event.group, env) ==
            (Maintained(s.mem.j, d.event.group, env), Done(Current(s.mem.j, d.event.group, env)))
    ensures Effect(s, Deliver(d, env)).mem.j == Process(s.mem.j, d, env).0
  {
    var j, g := s.mem.j, d.event.group;
    ReachableIsApart(s, events);
    ReachableInv(s, events);
    hide CreateInv, Apart, OpenIncident, Maintained, Current, ProcessFirst, ProcessAgain, Structural, Answers,
      SenderLaw, CoversTables;
    assert !RunConflict(j, d);
    hide BookInv;
    LawSoFar(s.mem.delivered, d.event, events);
    BookParts(s.mem);
    OpeningIsMaintenance(j, s.mem.delivered, g, env);
    OpeningKeeps(s.mem, g, env);
    OpeningAnswers(j, s.mem.delivered, g, env);
    OpeningLists(j, g, env);
    FewerStayApart(j, OpenIncident(j, g, env).0);
    MaintainedKeys(j, g, env);
    CoversSame(env, j, Maintained(j, g, env), d.event);
    DeliveredJournal(s.mem, d, env);
  }

  lemma CoversSame(env: Env, j: Journal, k: Journal, e: Event)
    requires CoversTables(env, j, e) && k.incidents.Keys == j.incidents.Keys && k.events == j.events
    ensures CoversTables(env, k, e)
  {
  }

  lemma LawSoFar(delivered: set<Event>, e: Event, events: set<Event>)
    requires SenderLaw(events) && delivered <= events && e in events
    ensures SenderLaw(delivered + {e})
  {
    assert delivered + {e} <= events;
  }

  // ---- an event of a settled episode -----------------------------------------------------------

  /** The event is noted under that incident, which does not hear of it, and nothing is owed for it. */
  ghost predicate Observed(j: Journal, k: Journal, d: Delivery, env: Env, m: Marker) {
    && Notes(j, k, d, Some(m), ClosedEpisodeObservation, env.now) && Owes(j, k, d, {}, {})
    && k.incidents == Maintained(j, d.event.group, env).incidents
    && k.open == Maintained(j, d.event.group, env).open
  }

  /** The first delivery of any event whose episode a closed incident of its group lists is accepted once
      heeded, noted under that incident and answered by it: no incident hears of it, whatever is open, and
      nothing is owed for it beyond what is in question about its run. */
  lemma SettledEpisodeIsObserved(s: Sys, events: set<Event>, d: Delivery, env: Env, m: Marker)
    requires SenderLaw(events) && Reachable(s, events) && d.event in events && Enabled(s, Deliver(d, env))
    requires d.event.eventId !in s.mem.j.events && Heeded(s.mem.j, d, env) && SettledIn(s.mem.j, d.event, env, m)
    ensures Process(s.mem.j, d, env).1 == Done(Some(m))
    ensures Observed(s.mem.j, Effect(s, Deliver(d, env)).mem.j, d, env, m)
  {
    Starts(s, events, d, env);
    var j, g := s.mem.j, d.event.group;
    var c := Maintained(j, g, env);
    SettledIsHeld(j, d.event, env, m);
    MaintainedKeys(j, g, env);
    CoveredMarker(env, c, d.event, m);
    HolderIsFound(c, d.event, env.markers, m);
    hide Apart, BookInv, CoversTables, SenderLaw, Reachable, Enabled, Effect, Maintained, Answers, FirstClosed,
      OpenIncident, Obligations, ProcessFault, ProcessRecovery, Owes, SettledIn, HoldsClosed;
    StoringNotes(c, d, Some(m), ClosedEpisodeObservation, env.now);
    var k := Effect(s, Deliver(d, env)).mem.j;
    assert k == Stored(c, d, Some(m), ClosedEpisodeObservation, env.now);
    NotingOwes(j, k, d, Some(m), ClosedEpisodeObservation, env.now);
  }

  lemma CoveredMarker(env: Env, j: Journal, e: Event, m: Marker)
    requires CoversTables(env, j, e) && HoldsClosed(j, m, e)
    ensures m in env.markers
  {
  }

  lemma StoringNotes(j: Journal, d: Delivery, marker: Option<Marker>, outcome: Outcome, now: int)
    ensures var k := Stored(j, d, marker, outcome, now);
            Notes(j, k, d, marker, outcome, now) && k.incidents == j.incidents && k.open == j.open
  {
  }

  lemma NotingOwes(j: Journal, k: Journal, d: Delivery, marker: Option<Marker>, outcome: Outcome, now: int)
    requires Notes(j, k, d, marker, outcome, now) && d.event.eventId !in j.events
    ensures Owes(j, k, d, {}, if marker.None? && d.event.kind == Recovery then {OfRecovery(d.event.eventId)} else {})
  {
    hide Obligations, Notes, Question, Owed;
    forall o
      ensures o in Obligations(j) <==> Owed(j, o)
      ensures o in Obligations(k) <==> Owed(k, o)
      ensures Owed(k, o) && !Owed(j, o) ==> NewlyOwed(d, marker, o)
      ensures Owed(j, o) && !Owed(k, o) ==> o.OfRun? && d.run.id == Some(o.id)
      ensures marker.None? && d.event.kind == Recovery && o == OfRecovery(d.event.eventId) ==> Owed(k, o)
    {
      OwedIsObligation(j, o);
      OwedIsObligation(k, o);
      NotedOwes(j, k, d, marker, outcome, now, o);
    }
  }

  predicate NewlyOwed(d: Delivery, marker: Option<Marker>, o: Obligation) {
    || (marker.None? && d.event.kind == Recovery && o == OfRecovery(d.event.eventId))
    || (Question(d).Some?
        && (o == OfEvent(d.event.eventId, Question(d).value)
            || (d.run.id.Some? && o == OfRun(d.run.id.value, Question(d).value))))
  }

  lemma NotedOwes(j: Journal, k: Journal, d: Delivery, marker: Option<Marker>, outcome: Outcome, now: int,
                  o: Obligation)
    requires Notes(j, k, d, marker, outcome, now) && d.event.eventId !in j.events
    ensures Owed(k, o) && !Owed(j, o) ==> NewlyOwed(d, marker, o)
    ensures Owed(j, o) && !Owed(k, o) ==> o.OfRun? && d.run.id == Some(o.id)
    ensures marker.None? && d.event.kind == Recovery && o == OfRecovery(d.event.eventId) ==> Owed(k, o)
  {
  }

  predicate Owed(j: Journal, o: Obligation) {
    match o
    case OfRun(id, reason) => id in j.runs && j.runs[id].unresolved == Some(reason)
    case OfInput(id, pending) =>
      id in j.inputs && j.inputs[id].unresolved == pending && (pending.Some? || j.inputs[id].pending)
    case OfEvent(id, reason) => id in j.events && j.events[id].unresolved == Some(reason)
    case OfRecovery(id) => id in j.events && j.events[id].payload.kind == Recovery && j.events[id].marker.None?
  }

  lemma OwedIsObligation(j: Journal, o: Obligation)
    ensures o in Obligations(j) <==> Owed(j, o)
  {
  }

  // ---- a recovery ------------------------------------------------------------------------------

  /** The group's open incident, if it lists the event's episode. */
  function Listing(j: Journal, e: Event, env: Env): Option<Marker> {
    match Current(j, e.group, env)
    case None => None
    case Some(m) => if m in j.incidents && e.episodeId in j.incidents[m].episodes then Some(m) else None
  }

  /** The incident carries the recovery: its entry is recovered from there on, unless a later event of the
      episode was recorded. */
  ghost predicate Carries(j: Journal, k: Journal, d: Delivery, m: Marker, now: int)
    requires m in j.incidents && d.event.episodeId in j.incidents[m].episodes
  {
    var entry := j.incidents[m].episodes[d.event.episodeId];
    var later := entry.lastSequence < d.event.sequence;
    && Notes(j, k, d, Some(m), if later then RecoveryRecorded else StaleRecovery, now)
    && m in k.incidents && k.incidents == j.incidents[m := k.incidents[m]] && Owes(j, k, d, {}, {})
    && Grew(j.incidents[m], k.incidents[m], {d.event}, j.incidents[m].episodes[d.event.episodeId :=
              if later then Episode(entry.signal, entry.source, true, d.event.sequence) else entry])
  }

  /** Without an incident to carry it the recovery waits, and waiting is owed. */
  ghost predicate Told(j: Journal, k: Journal, d: Delivery, env: Env) {
    && k.open == Maintained(j, d.event.group, env).open
    && match Listing(j, d.event, env)
       case None =>
         && Notes(j, k, d, None, RecoveryUnmatched, env.now) && Owes(j, k, d, {}, {OfRecovery(d.event.eventId)})
         && k.incidents == Maintained(j, d.event.group, env).incidents
       case Some(m) => Carries(j, k, d, m, env.now)
  }

  /** The first delivery of a recovery of an episode no closed incident lists is accepted once heeded.  If the
      open incident lists the episode, it carries the event; otherwise the event waits, and waiting is owed. */
  lemma RecoveryIsTold(s: Sys, events: set<Event>, d: Delivery, env: Env)
    requires SenderLaw(events) && Reachable(s, events) && d.event in events && Enabled(s, Deliver(d, env))
    requires d.event.eventId !in s.mem.j.events && Heeded(s.mem.j, d, env) && Unsettled(s.mem.j, d.event, env)
    requires d.event.kind == Recovery
    ensures Process(s.mem.j, d, env).1 == Done(Listing(s.mem.j, d.event, env))
    ensures Told(s.mem.j, Effect(s, Deliver(d, env)).mem.j, d, env)
  {
    hide Apart, CoversTables, Reachable, Enabled, Effect, FirstClosed, OpenIncident, Process, ProcessFirst,
      Owes, SettledIn, HoldsClosed, Notes, Stored, Carries, Maintained, Current, Listing, SenderLaw,
      ProcessRecovery, BookInv, Answers, AfterOpening, Heeded, Unsettled;
    Starts(s, events, d, env);
    var j, g := s.mem.j, d.event.group;
    var c, marker := Maintained(j, g, env), Current(j, g, env);
    UnsettledIsNotHeld(j, d.event, env);
    MaintainedKeys(j, g, env);
    ListingIsCurrent(j, d.event, env);
    FirstOfRecovery(j, d, env);
    var k := Effect(s, Deliver(d, env)).mem.j;
    if Listing(j, d.event, env).Some? {
      EntryKeepsSignal(AfterOpening(s.mem, g, env), marker.value, d.event);
      RecoveryIsCarried(j, marker.value, d, env.now);
    } else {
      RecoveryWaits(c, marker, d, env.now);
      NotesFrom(j, c, k, d);
    }
  }

  lemma FirstOfRecovery(j: Journal, d: Delivery, env: Env)
    requires d.event.kind == Recovery
    ensures var (k, r) := OpenIncident(j, d.event.group, env);
            r.Done? && FirstClosed(k, d.event, env.markers).None? ==>
              ProcessFirst(j, d, env) == ProcessRecovery(k, r.value, d, env.now)
  {
    hide OpenIncident, ProcessRecovery, ProcessFault, FirstClosed;
  }

  lemma ListingIsCurrent(j: Journal, e: Event, env: Env)
    ensures var c, marker := Maintained(j, e.group, env), Current(j, e.group, env);
            if marker.Some? && marker.value in j.incidents && e.episodeId in j.incidents[marker.value].episodes
            then Listing(j, e, env) == marker && c == j
            else
              && Listing(j, e, env).None?
              && (marker.Some? && marker.value in c.incidents ==> e.episodeId !in c.incidents[marker.value].episodes)
  {
  }

  lemma NotesFrom(j: Journal, c: Journal, k: Journal, d: Delivery)
    requires c.events == j.events && c.runs == j.runs && c.inputs == j.inputs && c.discovery == j.discovery
    ensures forall marker, outcome, now :: Notes(c, k, d, marker, outcome, now) ==> Notes(j, k, d, marker, outcome, now)
    ensures forall less, more :: Owes(c, k, d, less, more) ==> Owes(j, k, d, less, more)
  {
  }

  lemma RecoveryIsCarried(j: Journal, m: Marker, d: Delivery, now: int)
    requires m in j.incidents && d.event.episodeId in j.incidents[m].episodes
    requires SameSignal(j.incidents[m].episodes[d.event.episodeId], d.event)
    requires d.event.eventId !in j.events && d.event.kind == Recovery
    ensures var (k, r) := ProcessRecovery(j, Some(m), d, now);
            r == Done(Some(m)) && k.open == j.open && Carries(j, k, d, m, now)
  {
    hide Owes, Grew, Notes, Stored, Obligations, Admit;
    var e, k := d.event, ProcessRecovery(j, Some(m), d, now).0;
    var entry := j.incidents[m].episodes[e.episodeId];
    var outcome := if entry.lastSequence < e.sequence then RecoveryRecorded else StaleRecovery;
    AdmittingNotes(j, m, d, outcome, now);
    RecoveryGrows(j.incidents[m], e);
    NotingOwes(j, k, d, Some(m), outcome, now);
  }

  lemma EntryKeepsSignal(b: Book, m: Marker, e: Event)
    requires BookInv(b) && SenderLaw(b.delivered + {e})
    requires m in b.j.incidents && e.episodeId in b.j.incidents[m].episodes
    ensures SameSignal(b.j.incidents[m].episodes[e.episodeId], e)
  {
    EpisodeKeepsSignal(b, m, e);
  }

  lemma RecoveryWaits(j: Journal, marker: Option<Marker>, d: Delivery, now: int)
    requires d.event.eventId !in j.events && d.event.kind == Recovery
    requires marker.Some? && marker.value in j.incidents ==> d.event.episodeId !in j.incidents[marker.value].episodes
    ensures var (k, r) := ProcessRecovery(j, marker, d, now);
            && r == Done(None) && Notes(j, k, d, None, RecoveryUnmatched, now) && k.incidents == j.incidents
            && k.open == j.open && Owes(j, k, d, {}, {OfRecovery(d.event.eventId)})
  {
    hide Owes, Notes, Stored, Obligations, Admit;
    StoringNotes(j, d, None, RecoveryUnmatched, now);
    NotingOwes(j, ProcessRecovery(j, marker, d, now).0, d, None, RecoveryUnmatched, now);
  }

  lemma AdmittingNotes(j: Journal, m: Marker, d: Delivery, outcome: Outcome, now: int)
    requires m in j.incidents
    ensures var k := Admit(j, m, d, outcome, now);
            && Notes(j, k, d, Some(m), outcome, now) && k.open == j.open
            && k.incidents == j.incidents[m := Joined(j.incidents[m], d.event)]
  {
  }

  lemma RecoveryGrows(inc: Incident, e: Event)
    requires e.kind == Recovery && e.episodeId in inc.episodes
    ensures var entry := inc.episodes[e.episodeId];
            Grew(inc, Joined(inc, e), {e}, inc.episodes[e.episodeId :=
              if entry.lastSequence < e.sequence then Episode(entry.signal, entry.source, true, e.sequence) else entry])
  {
    assert e in {e};
  }

  // ---- a fault ---------------------------------------------------------------------------------

  /** A retained recovery of the event's episode that no incident carries. */
  predicate Waits(r: EventRecord, e: Event) {
    r.marker.None? && r.payload.kind == Recovery && r.payload.episodeId == e.episodeId
  }

  ghost predicate NoneWaits(j: Journal, e: Event) {
    forall id | id in j.events :: !Waits(j.events[id], e)
  }

  /** One more episode, or one more incident, has its place. */
  predicate HasPlace(j: Journal, e: Event, env: Env) {
    match Current(j, e.group, env)
    case None => |j.incidents| < MAX_INCIDENTS
    case Some(m) =>
      m in j.incidents ==> e.episodeId in j.incidents[m].episodes || |j.incidents[m].episodes| < MAX_EPISODES
  }

  /** The incident that takes the fault: the open one, or a new one under the event's own marker. */
  function Host(j: Journal, e: Event, env: Env): (Marker, Incident) {
    var m := if Current(j, e.group, env).Some? then Current(j, e.group, env).value else Marker(e.group, e.eventId);
    (m, if Current(j, e.group, env).Some? && m in j.incidents then j.incidents[m]
        else Incident(e.group, Pending, None, map[], 0, e.occurredAt, None, false, false, 0))
  }

  /** The waiting event and its run come under the incident. */
  predicate Adopts(i: Journal, k: Journal, w: nat, m: Marker)
    requires w in i.events
  {
    var r := i.events[w];
    && k.events == i.events[w := r.(marker := Some(m))]
    && k.runs == (if r.runId.Some? && r.runId.value in i.runs then
                    i.runs[r.runId.value := i.runs[r.runId.value].(marker := Some(m), outcome := RecoveryRecorded)]
                  else i.runs)
    && k.inputs == i.inputs && k.discovery == i.discovery
  }

  /** The fault joins its incident; the entry of its episode is as late as its latest event. */
  ghost predicate Hosted(j: Journal, k: Journal, d: Delivery, m: Marker, was: Incident, now: int)
    requires m in k.incidents
  {
    var e := d.event;
    var entry := if e.episodeId in was.episodes then was.episodes[e.episodeId]
                 else Episode(e.signal, e.source, false, 0);
    && Notes(j, k, d, Some(m), IncidentEvent, now) && Owes(j, k, d, {}, {})
    && Grew(was, k.incidents[m], {e}, was.episodes[e.episodeId := entry.(lastSequence :=
              if entry.recovered || e.sequence <= entry.lastSequence then entry.lastSequence else e.sequence)])
  }

  /** The fault joins its incident together with the recovery that waited for it, which ends the episode. */
  ghost predicate HostedWith(j: Journal, k: Journal, d: Delivery, w: nat, m: Marker, was: Incident, now: int)
    requires w in j.events && m in k.incidents
  {
    var e, r := d.event, j.events[w].payload;
    && (exists i: Journal :: Notes(j, i, d, Some(m), IncidentEvent, now) && w in i.events && Adopts(i, k, w, m))
    && Owes(j, k, d, {OfRecovery(w)}, {})
    && Grew(was, k.incidents[m], {e, r}, was.episodes[e.episodeId := Episode(e.signal, e.source, true, r.sequence)])
  }

  /** The host is the group's open incident from now on, and no other incident hears of the fault. */
  ghost predicate Housed(j: Journal, k: Journal, d: Delivery, env: Env) {
    var (m, was) := Host(j, d.event, env);
    && m in k.incidents && k.incidents == Maintained(j, d.event.group, env).incidents[m := k.incidents[m]]
    && k.open == Maintained(j, d.event.group, env).open[d.event.group := m]
    && (NoneWaits(j, d.event) ==> Hosted(j, k, d, m, was, env.now))
    && (forall w | w in j.events && Waits(j.events[w], d.event) :: HostedWith(j, k, d, w, m, was, env.now))
  }

  /** The first delivery of a failure or escalation of an episode no closed incident lists is accepted once
      heeded and given its place: the group's open incident carries it, or a new one does. */
  lemma FaultIsHosted(s: Sys, events: set<Event>, d: Delivery, env: Env)
    requires SenderLaw(events) && Reachable(s, events) && d.event in events && Enabled(s, Deliver(d, env))
    requires d.event.eventId !in s.mem.j.events && Heeded(s.mem.j, d, env) && Unsettled(s.mem.j, d.event, env)
    requires d.event.kind != Recovery && HasPlace(s.mem.j, d.event, env)
    ensures Process(s.mem.j, d, env).1 == Done(Some(Host(s.mem.j, d.event, env).0))
    ensures Housed(s.mem.j, Effect(s, Deliver(d, env)).mem.j, d, env)
  {
    hide Apart, CoversTables, Reachable, Enabled, Effect, FirstClosed, OpenIncident, Process, ProcessFirst,
      ProcessFault, Owes, Notes, Grew, Hosted, HostedWith, NoneWaits, Waits, Host, HasPlace, Prepared, Maintained,
      Current, SenderLaw, BookInv, Answers, AfterOpening, Heeded, Unsettled, Ready, Carrier;
    Starts(s, events, d, env);
    var j, g := s.mem.j, d.event.group;
    var c, marker := AfterOpening(s.mem, g, env), Current(j, g, env);
    UnsettledIsNotHeld(j, d.event, env);
    MaintainedKeys(j, g, env);
    FirstOfFault(j, d, env);
    HostIsReady(c, j, d, env);
    var (m, was) := Host(j, d.event, env);
    var k := Effect(s, Deliver(d, env)).mem.j;
    FaultOnTables(c, marker, d, env);
    if NoneWaits(c.j, d.event) {
      FaultAlone(c, marker, d, env);
    }
    forall w | w in c.j.events && Waits(c.j.events[w], d.event)
      ensures HostedWith(c.j, k, d, w, m, was, env.now)
    {
      FaultWith(c, marker, d, env, w);
    }
    HostedFrom(j, c.j, k, d, m, was, env.now);
  }

  // How `process` gets there.

  /** The journal in which the fault's incident stands ready. */
  function Ready(c: Journal, marker: Option<Marker>, e: Event): Journal {
    if marker.Some? then c else Found(c, e)
  }

  lemma FaultIsAdmitted(c: Journal, marker: Option<Marker>, d: Delivery, env: Env)
    requires marker.Some? ==> marker.value in c.incidents
    requires marker.None? ==> |c.incidents| < MAX_INCIDENTS
    requires marker.Some? ==> d.event.episodeId in c.incidents[marker.value].episodes
                              || |c.incidents[marker.value].episodes| < MAX_EPISODES
    requires marker.Some? && d.event.episodeId in c.incidents[marker.value].episodes ==>
               SameSignal(c.incidents[marker.value].episodes[d.event.episodeId], d.event)
    ensures var m := if marker.Some? then marker.value else Marker(d.event.group, d.event.eventId);
            var h := Ready(c, marker, d.event);
            && m in h.incidents && m in Admit(h, m, d, IncidentEvent, env.now).incidents
            && ProcessFault(c, marker, d, env) ==
               (AdoptAll(Admit(h, m, d, IncidentEvent, env.now), m, d.event, env.ids), Done(Some(m)))
  {
    hide AdoptAll;
  }

  lemma {:induction false} NothingToAdopt(i: Journal, m: Marker, e: Event, ids: seq<nat>)
    requires m in i.incidents && forall id | id in ids && id in i.events :: !Matches(i.events[id], e)
    ensures AdoptAll(i, m, e, ids) == i
  {
    if ids != [] {
      NothingToAdopt(i, m, e, ids[..|ids| - 1]);
    }
  }

  /** One recovery waits: it is adopted once, wherever it stands in the iteration order. */
  lemma {:induction false} OneToAdopt(i: Journal, m: Marker, e: Event, ids: seq<nat>, w: nat)
    requires m in i.incidents && w in i.events && w in ids
    requires forall id | id in ids && id in i.events :: Matches(i.events[id], e) <==> id == w
    ensures AdoptAll(i, m, e, ids) == Adopt(i, m, e, w)
  {
    var before, last := ids[..|ids| - 1], ids[|ids| - 1];
    assert ids == before + [last];
    if w in before {
      OneToAdopt(i, m, e, before, w);
      AdoptedMatchesNoMore(i, m, e, w, last);
    } else {
      hide Adopt;
      NothingToAdopt(i, m, e, before);
    }
  }

  lemma AdoptedMatchesNoMore(i: Journal, m: Marker, e: Event, w: nat, last: nat)
    requires m in i.incidents && w in i.events && Matches(i.events[w], e)
    requires last in i.events ==> (Matches(i.events[last], e) <==> last == w)
    ensures var k := Adopt(i, m, e, w); m in k.incidents && Adopt(k, m, e, last) == k
  {
  }

  lemma FirstOfFault(j: Journal, d: Delivery, env: Env)
    requires d.event.kind != Recovery
    ensures var (k, r) := OpenIncident(j, d.event.group, env);
            r.Done? && FirstClosed(k, d.event, env.markers).None?
            && (r.value.Some? ==> r.value.value in k.incidents) ==>
              ProcessFirst(j, d, env) == ProcessFault(k, r.value, d, env)
  {
    hide OpenIncident, ProcessRecovery, ProcessFault, FirstClosed;
    OpeningKeepsMarker(j, d.event.group, env);
  }

  lemma OpeningKeepsMarker(j: Journal, g: string, env: Env)
    ensures var (k, r) := OpenIncident(j, g, env); r.Done? && r.value.Some? ==> r.value.value in k.incidents
  {
  }

  /** The fault meets an incident that can take it. */
  ghost predicate Prepared(c: Book, marker: Option<Marker>, d: Delivery) {
    && (marker.Some? ==> marker.value in c.j.incidents)
    && (marker.None? ==> |c.j.incidents| < MAX_INCIDENTS)
    && (marker.Some? ==> d.event.episodeId in c.j.incidents[marker.value].episodes
                              || |c.j.incidents[marker.value].episodes| < MAX_EPISODES)
    && (marker.Some? && d.event.episodeId in c.j.incidents[marker.value].episodes ==>
               SameSignal(c.j.incidents[marker.value].episodes[d.event.episodeId], d.event))
  }

  function Carrier(marker: Option<Marker>, e: Event): Marker {
    if marker.Some? then marker.value else Marker(e.group, e.eventId)
  }

  /** Matching is waiting: under the law the episode tells group, source and signal. */
  lemma MatchesIsWaiting(c: Book, i: Journal, d: Delivery, m: Marker, now: int)
    requires BookInv(c) && SenderLaw(c.delivered + {d.event}) && d.event.eventId !in c.j.events
    requires Notes(c.j, i, d, Some(m), IncidentEvent, now)
    ensures forall id | id in i.events ::
              Matches(i.events[id], d.event) <==> id in c.j.events && Waits(c.j.events[id], d.event)
  {
    forall id | id in c.j.events
      ensures Matches(c.j.events[id], d.event) <==> Waits(c.j.events[id], d.event)
    {
      assert EventOk(c.j, c.delivered, id);
      var f := c.j.events[id].payload;
      assert f in c.delivered + {d.event} && d.event in c.delivered + {d.event};
      assert Coherent(f, d.event);
    }
    hide BookInv, SenderLaw;
  }

  /** An episode has one recovery. */
  lemma OneWaits(c: Book, e: Event, v: nat, w: nat)
    requires BookInv(c) && v in c.j.events && w in c.j.events && Waits(c.j.events[v], e) && Waits(c.j.events[w], e)
    ensures v == w
  {
    assert EventOk(c.j, c.delivered, v) && EventOk(c.j, c.delivered, w);
    assert Coherent(c.j.events[v].payload, c.j.events[w].payload);
  }

  /** What waits came later, and the open incident does not list its episode. */
  lemma WaiterIsLater(c: Book, marker: Option<Marker>, e: Event, w: nat)
    requires BookInv(c) && SenderLaw(c.delivered + {e}) && Answers(c.j, e.group, marker) && e.kind != Recovery
    requires w in c.j.events && Waits(c.j.events[w], e)
    ensures e.sequence < c.j.events[w].payload.sequence
    ensures marker.Some? && marker.value in c.j.incidents ==> e.episodeId !in c.j.incidents[marker.value].episodes
  {
    assert EventOk(c.j, c.delivered, w);
    var r := c.j.events[w].payload;
    assert r in c.delivered + {e} && e in c.delivered + {e};
    assert Coherent(r, e);
    assert Unmatched(c.j, c.j.events[w]);
  }

  lemma FaultGrows(inc: Incident, e: Event)
    requires e.kind != Recovery
    ensures var entry := if e.episodeId in inc.episodes then inc.episodes[e.episodeId]
                         else Episode(e.signal, e.source, false, 0);
            Grew(inc, Joined(inc, e), {e}, inc.episodes[e.episodeId := entry.(lastSequence :=
              if entry.recovered || e.sequence <= entry.lastSequence then entry.lastSequence else e.sequence)])
  {
    assert e in {e};
  }

  lemma FaultGrowsWith(inc: Incident, e: Event, r: Event)
    requires e.kind != Recovery && r.kind == Recovery && r.episodeId == e.episodeId && e.sequence < r.sequence
    requires e.episodeId !in inc.episodes
    ensures Grew(inc, Joined(Joined(inc, e), r), {e, r},
                 inc.episodes[e.episodeId := Episode(e.signal, e.source, true, r.sequence)])
  {
    assert e in {e, r} && r in {e, r} && |{e, r}| == 2;
    var eps := Joined(inc, e).episodes;
    assert eps[e.episodeId] == Episode(e.signal, e.source, false, e.sequence);
    assert Joined(Joined(inc, e), r).episodes ==
           inc.episodes[e.episodeId := Episode(e.signal, e.source, true, r.sequence)];
  }

  /** The incident that takes the fault, as it stands once maintenance is noted. */
  lemma HostIsReady(c: Book, j: Journal, d: Delivery, env: Env)
    requires BookInv(c) && SenderLaw(c.delivered + {d.event}) && CoversTables(env, c.j, d.event)
    requires c.j == Maintained(j, d.event.group, env) && FirstClosed(c.j, d.event, env.markers).None?
    requires Answers(c.j, d.event.group, Current(j, d.event.group, env)) && HasPlace(j, d.event, env)
    ensures var marker := Current(j, d.event.group, env);
            && Prepared(c, marker, d)
            && (marker.Some? ==> marker.value in c.j.incidents && d.event.group in c.j.open
                                 && marker.value == c.j.open[d.event.group])
            && Carrier(marker, d.event) in Ready(c.j, marker, d.event).incidents
            && Host(j, d.event, env) ==
               (Carrier(marker, d.event), Ready(c.j, marker, d.event).incidents[Carrier(marker, d.event)])
  {
    hide BookInv, SenderLaw, CoversTables, FirstClosed;
    var marker := Current(j, d.event.group, env);
    CurrentIsMaintained(j, d.event.group, env);
    MaintainedSize(j, d.event.group, env);
    if marker.Some? && d.event.episodeId in c.j.incidents[marker.value].episodes {
      EntryKeepsSignal(c, marker.value, d.event);
    }
  }

  lemma CurrentIsMaintained(j: Journal, g: string, env: Env)
    ensures Current(j, g, env).Some? ==>
              Maintained(j, g, env) == j && g in j.open && Current(j, g, env).value == j.open[g]
  {
  }

  lemma MaintainedSize(j: Journal, g: string, env: Env)
    ensures |Maintained(j, g, env).incidents| == |j.incidents|
  {
    var k := Maintained(j, g, env);
    assert k.incidents.Keys == j.incidents.Keys;
    assert |k.incidents.Keys| == |k.incidents| && |j.incidents.Keys| == |j.incidents|;
  }

  lemma {:induction false} AdoptFrame(i: Journal, m: Marker, e: Event, ids: seq<nat>)
    requires m in i.incidents
    ensures var k := AdoptAll(i, m, e, ids); k.incidents == i.incidents[m := k.incidents[m]] && k.open == i.open
  {
    if ids != [] {
      AdoptFrame(i, m, e, ids[..|ids| - 1]);
    }
  }

  lemma FaultOnTables(c: Book, marker: Option<Marker>, d: Delivery, env: Env)
    requires Prepared(c, marker, d)
    requires marker.Some? ==> d.event.group in c.j.open && marker.value == c.j.open[d.event.group]
    ensures var m, (k, r) := Carrier(marker, d.event), ProcessFault(c.j, marker, d, env);
            && r == Done(Some(m)) && m in k.incidents && k.incidents == c.j.incidents[m := k.incidents[m]]
            && k.open == c.j.open[d.event.group := m]
  {
    var m, h := Carrier(marker, d.event), Ready(c.j, marker, d.event);
    FaultIsAdmitted(c.j, marker, d, env);
    hide ProcessFault, Admit, AdoptAll;
    AdmittingNotes(h, m, d, IncidentEvent, env.now);
    AdoptFrame(Admit(h, m, d, IncidentEvent, env.now), m, d.event, env.ids);
  }

  /** The journal with the fault admitted, before any adoption. */
  lemma FaultIsNoted(c: Book, marker: Option<Marker>, d: Delivery, env: Env) returns (i: Journal)
    requires BookInv(c) && SenderLaw(c.delivered + {d.event}) && d.event.eventId !in c.j.events
    requires Prepared(c, marker, d) && d.event.kind != Recovery
    ensures var m := Carrier(marker, d.event);
            && m in i.incidents && m in Ready(c.j, marker, d.event).incidents
            && i.incidents[m] == Joined(Ready(c.j, marker, d.event).incidents[m], d.event)
            && Notes(c.j, i, d, Some(m), IncidentEvent, env.now) && Owes(c.j, i, d, {}, {})
            && ProcessFault(c.j, marker, d, env).0 == AdoptAll(i, m, d.event, env.ids)
            && (forall id | id in i.events ::
                  Matches(i.events[id], d.event) <==> id in c.j.events && Waits(c.j.events[id], d.event))
  {
    var m, h := Carrier(marker, d.event), Ready(c.j, marker, d.event);
    FaultIsAdmitted(c.j, marker, d, env);
    hide ProcessFault, Admit, AdoptAll, BookInv, SenderLaw, Joined, Notes, Owes, Prepared, Matches, Waits;
    i := Admit(h, m, d, IncidentEvent, env.now);
    AdmittingNotes(h, m, d, IncidentEvent, env.now);
    NotesFrom(c.j, h, i, d);
    NotingOwes(c.j, i, d, Some(m), IncidentEvent, env.now);
    MatchesIsWaiting(c, i, d, m, env.now);
  }

  lemma FaultAlone(c: Book, marker: Option<Marker>, d: Delivery, env: Env)
    requires BookInv(c) && SenderLaw(c.delivered + {d.event}) && d.event.eventId !in c.j.events
    requires Prepared(c, marker, d) && d.event.kind != Recovery && NoneWaits(c.j, d.event)
    ensures var m, k := Carrier(marker, d.event), ProcessFault(c.j, marker, d, env).0;
            m in k.incidents && m in Ready(c.j, marker, d.event).incidents &&
            Hosted(c.j, k, d, m, Ready(c.j, marker, d.event).incidents[m], env.now)
  {
    hide BookInv, SenderLaw, Prepared, ProcessFault, AdoptAll, Joined, Notes, Owes, Grew, Matches, Waits;
    var i := FaultIsNoted(c, marker, d, env);
    var m := Carrier(marker, d.event);
    NothingToAdopt(i, m, d.event, env.ids);
    FaultGrows(Ready(c.j, marker, d.event).incidents[m], d.event);
  }

  lemma FaultWith(c: Book, marker: Option<Marker>, d: Delivery, env: Env, w: nat)
    requires BookInv(c) && SenderLaw(c.delivered + {d.event}) && d.event.eventId !in c.j.events
    requires Answers(c.j, d.event.group, marker) && CoversTables(env, c.j, d.event)
    requires Prepared(c, marker, d) && d.event.kind != Recovery && w in c.j.events && Waits(c.j.events[w], d.event)
    ensures var m, k := Carrier(marker, d.event), ProcessFault(c.j, marker, d, env).0;
            m in k.incidents && m in Ready(c.j, marker, d.event).incidents &&
            HostedWith(c.j, k, d, w, m, Ready(c.j, marker, d.event).incidents[m], env.now)
  {
    hide BookInv, SenderLaw, Prepared, ProcessFault, AdoptAll, Joined, Notes, Owes, Grew, Matches, Waits;
    var i := FaultIsNoted(c, marker, d, env);
    var m, e, r := Carrier(marker, d.event), d.event, c.j.events[w].payload;
    assert w in env.ids;
    NotedEventsStay(c.j, i, d, m, env.now, w);
    WaitsIsTold(c.j.events[w], e);
    forall v | v in env.ids && v in i.events
      ensures Matches(i.events[v], e) <==> v == w
    {
      if v in c.j.events && Waits(c.j.events[v], e) {
        OneWaits(c, e, v, w);
      }
    }
    OneToAdopt(i, m, e, env.ids, w);
    AdoptingAdopts(i, m, e, w);
    WaiterIsLater(c, marker, e, w);
    AdoptingOwes(c.j, i, Adopt(i, m, e, w), d, w, m);
    FaultGrowsWith(Ready(c.j, marker, e).incidents[m], e, r);
  }

  lemma WaitsIsTold(r: EventRecord, e: Event)
    requires Waits(r, e)
    ensures r.marker.None? && r.payload.kind == Recovery && r.payload.episodeId == e.episodeId
  {
  }

  lemma NotedEventsStay(j: Journal, i: Journal, d: Delivery, m: Marker, now: int, w: nat)
    requires Notes(j, i, d, Some(m), IncidentEvent, now) && d.event.eventId !in j.events && w in j.events
    ensures w in i.events && i.events[w] == j.events[w]
  {
  }

  lemma AdoptingAdopts(i: Journal, m: Marker, e: Event, w: nat)
    requires m in i.incidents && w in i.events && Matches(i.events[w], e)
    ensures var k := Adopt(i, m, e, w);
            Adopts(i, k, w, m) && k.incidents == i.incidents[m := Joined(i.incidents[m], i.events[w].payload)]
  {
  }

  /** Adopting settles what waiting owed, and nothing else. */
  lemma AdoptingOwes(j: Journal, i: Journal, k: Journal, d: Delivery, w: nat, m: Marker)
    requires Owes(j, i, d, {}, {}) && w in i.events && Adopts(i, k, w, m)
    ensures Owes(j, k, d, {OfRecovery(w)}, {})
  {
    hide Obligations, Adopts, Owed;
    forall o
      ensures o in Obligations(k) <==> o in Obligations(i) && o != OfRecovery(w)
    {
      OwedIsObligation(i, o);
      OwedIsObligation(k, o);
      AdoptedOwes(i, k, w, m, o);
    }
  }

  lemma AdoptedOwes(i: Journal, k: Journal, w: nat, m: Marker, o: Obligation)
    requires w in i.events && Adopts(i, k, w, m)
    ensures Owed(k, o) <==> Owed(i, o) && o != OfRecovery(w)
  {
  }

  /** What was noted on the journal after maintenance was noted on the journal before. */
  lemma HostedFrom(j: Journal, c: Journal, k: Journal, d: Delivery, m: Marker, was: Incident, now: int)
    requires c.events == j.events && c.runs == j.runs && c.inputs == j.inputs && c.discovery == j.discovery
    requires m in k.incidents
    ensures NoneWaits(c, d.event) <==> NoneWaits(j, d.event)
    ensures Hosted(c, k, d, m, was, now) ==> Hosted(j, k, d, m, was, now)
    ensures forall w | w in j.events :: HostedWith(c, k, d, w, m, was, now) ==> HostedWith(j, k, d, w, m, was, now)
  {
    hide Grew, Waits, Adopts, Obligations, Question;
    forall i: Journal
      ensures Notes(c, i, d, Some(m), IncidentEvent, now) <==> Notes(j, i, d, Some(m), IncidentEvent, now)
    {
    }
    hide Notes;
    assert forall less, more :: Owes(c, k, d, less, more) ==> Owes(j, k, d, less, more) by {
      NotesFrom(j, c, k, d);
    }
    hide Owes;
  }

  // ---- every first delivery --------------------------------------------------------------------

  /** What becomes of a first delivery: what `process` answers, and the tables afterwards. */
  ghost predicate Received(j: Journal, k: Journal, r: Result<Option<Marker>>, d: Delivery, env: Env) {
    if !Heeded(j, d, env) then r.Failed? && k == j
    else if !Unsettled(j, d.event, env) then
      forall m | SettledIn(j, d.event, env, m) :: r == Done(Some(m)) && Observed(j, k, d, env, m)
    else if d.event.kind == Recovery then r == Done(Listing(j, d.event, env)) && Told(j, k, d, env)
    else if !HasPlace(j, d.event, env) then r.Failed? && k == Maintained(j, d.event.group, env)
    else r == Done(Some(Host(j, d.event, env).0)) && Housed(j, k, d, env)
  }

  /** In every state of every run, that is what becomes of it. */
  lemma FirstDeliveryIsReceived(s: Sys, events: set<Event>, d: Delivery, env: Env)
    requires SenderLaw(events) && Reachable(s, events) && d.event in events && Enabled(s, Deliver(d, env))
    requires d.event.eventId !in s.mem.j.events
    ensures Received(s.mem.j, Effect(s, Deliver(d, env)).mem.j, Process(s.mem.j, d, env).1, d, env)
  {
    hide Reachable, Enabled, Effect, SenderLaw, Heeded, SettledIn, HasPlace, Process, Observed, Told, Housed,
      Maintained, Host, Listing;
    var j, e := s.mem.j, d.event;
    if !Heeded(j, d, env) {
      UnheededIsRefused(s, events, d, env);
    } else if !Unsettled(j, e, env) {
      forall m | SettledIn(j, e, env, m)
        ensures Process(j, d, env).1 == Done(Some(m)) && Observed(j, Effect(s, Deliver(d, env)).mem.j, d, env, m)
      {
        SettledEpisodeIsObserved(s, events, d, env, m);
      }
    } else if e.kind == Recovery {
      RecoveryIsTold(s, events, d, env);
    } else if HasPlace(j, e, env) {
      FaultIsHosted(s, events, d, env);
    } else {
      PlacelessIsRefused(s, events, d, env);
    }
  }

  lemma UnheededIsRefused(s: Sys, events: set<Event>, d: Delivery, env: Env)
    requires SenderLaw(events) && Reachable(s, events) && Enabled(s, Deliver(d, env))
    requires d.event.eventId !in s.mem.j.events && !Heeded(s.mem.j, d, env)
    ensures Process(s.mem.j, d, env).1.Failed? && Effect(s, Deliver(d, env)).mem.j == s.mem.j
  {
    ReachableBook(s, events);
    BookParts(s.mem);
    DeliveredJournal(s.mem, d, env);
    hide BookInv, AfterDelivery, SenderLaw, Reachable, Structural, CoversTables, ProcessFault, ProcessRecovery;
    OpeningIsMaintenance(s.mem.j, s.mem.delivered, d.event.group, env);
  }

  lemma PlacelessIsRefused(s: Sys, events: set<Event>, d: Delivery, env: Env)
    requires SenderLaw(events) && Reachable(s, events) && d.event in events && Enabled(s, Deliver(d, env))
    requires d.event.eventId !in s.mem.j.events && Heeded(s.mem.j, d, env) && Unsettled(s.mem.j, d.event, env)
    requires d.event.kind != Recovery && !HasPlace(s.mem.j, d.event, env)
    ensures Process(s.mem.j, d, env).1.Failed?
    ensures Effect(s, Deliver(d, env)).mem.j == Maintained(s.mem.j, d.event.group, env)
  {
    hide *;
    Starts(s, events, d, env);
    var j, g := s.mem.j, d.event.group;
    UnsettledIsNotHeld(j, d.event, env);
    FirstOfFault(j, d, env);
    PlacelessFault(j, d, env);
    OpeningKeepsMarker(j, g, env);
  }

  lemma PlacelessFault(j: Journal, d: Delivery, env: Env)
    requires !HasPlace(j, d.event, env)
    ensures var c, marker := Maintained(j, d.event.group, env), Current(j, d.event.group, env);
            (marker.Some? ==> marker.value in c.incidents) ==>
              ProcessFault(c, marker, d, env).1.Failed? && ProcessFault(c, marker, d, env).0 == c
  {
    CurrentIsMaintained(j, d.event.group, env);
    MaintainedSize(j, d.event.group, env);
    hide Maintained, Admit, AdoptAll;
  }

  // ---- a repeated delivery ---------------------------------------------------------------------

  /** A repeated delivery contradicts what is stored: another trigger, other bytes, an import by another run,
      or a run that stands for another event. */
  predicate Contradicts(j: Journal, d: Delivery)
    requires d.event.eventId in j.events
  {
    var prior := j.events[d.event.eventId];
    || prior.native.trigger != d.run.trigger
    || (d.bytes.Some? && prior.bytes.Some? && d.bytes != prior.bytes)
    || (d.origin == OperatorOriginal && d.run.id.Some? && prior.runId.Some? && d.run.id != prior.runId)
    || (d.run.id.Some? && d.run.id.value in j.runs && j.runs[d.run.id.value].eventId.Some?
        && j.runs[d.run.id.value].eventId != Some(d.event.eventId))
  }

  /** The incident hears of a repeated event, and does not count it. */
  predicate Reheard(a: Incident, b: Incident, e: Event) {
    && b == a.(lastEventAt := b.lastEventAt, metadataDirty := true)
    && b.lastEventAt == (if a.lastEventAt.Some? && e.occurredAt <= a.lastEventAt.value then a.lastEventAt
                         else Some(e.occurredAt))
  }

  /** What becomes of a repeated delivery: the run is noted as a duplicate under the event's marker, and only an
      operator's import changes the event's record. */
  predicate Repeated(j: Journal, k: Journal, r: Result<Option<Marker>>, d: Delivery, env: Env)
    requires d.event.eventId in j.events
  {
    var prior := j.events[d.event.eventId];
    var known := prior.marker.Some? && prior.marker.value in j.incidents;
    if Contradicts(j, d) || (known && !env.authorized) then r.Failed? && k == j
    else
      && r == Done(prior.marker) && k.open == j.open && k.inputs == j.inputs && k.discovery == j.discovery
      && k.runs == (match d.run.id
                    case None => j.runs
                    case Some(id) => j.runs[id := RunRecord(Some(d.event.eventId), prior.marker, DuplicateEvent,
                                                            Question(d), env.now, d.run)])
      && (if !known then k.incidents == j.incidents
          else
            && prior.marker.value in k.incidents
            && k.incidents == j.incidents[prior.marker.value := k.incidents[prior.marker.value]]
            && Reheard(j.incidents[prior.marker.value], k.incidents[prior.marker.value], d.event))
      && k.events == (if d.origin != OperatorOriginal then j.events
                      else
                        j.events[d.event.eventId := EventRecord(
                          if d.run.id.Some? then d.run.id else prior.runId, prior.marker, d.event,
                          if d.run.id.Some? then d.run else prior.native, OperatorOriginal, d.bytes,
                          if d.run.id.Some? then Question(d) else prior.unresolved, prior.at)])
  }

  /** In every state of every run, that is what becomes of it. */
  lemma RepeatIsReceived(s: Sys, events: set<Event>, d: Delivery, env: Env)
    requires SenderLaw(events) && Reachable(s, events) && d.event in events && Enabled(s, Deliver(d, env))
    requires d.event.eventId in s.mem.j.events
    ensures Repeated(s.mem.j, Effect(s, Deliver(d, env)).mem.j, Process(s.mem.j, d, env).1, d, env)
  {
    ReachableInv(s, events);
    DeliveredJournal(s.mem, d, env);
    SamePayload(s.mem, d.event, events);
    hide SysInv, Repeated, ProcessAgain, Contradicts, AfterDelivery, SenderLaw, Reachable, CoversTables, ProcessFirst,
      RunConflict;
    var j := s.mem.j;
    if RunConflict(j, d) {
      ConflictIsContradiction(j, d, env);
    } else {
      AgainIsRepeated(j, d, env);
    }
  }

  lemma ConflictIsContradiction(j: Journal, d: Delivery, env: Env)
    requires d.event.eventId in j.events && RunConflict(j, d)
    ensures Repeated(j, j, Failed(RunIdentityConflict), d, env)
  {
  }

  lemma AgainIsRepeated(j: Journal, d: Delivery, env: Env)
    requires d.event.eventId in j.events && j.events[d.event.eventId].payload == d.event && !RunConflict(j, d)
    ensures Repeated(j, ProcessAgain(j, d, env).0, ProcessAgain(j, d, env).1, d, env)
  {
    var prior := j.events[d.event.eventId];
    EnrichedIs(prior, d);
    NotedRun(d, prior.marker, env.now);
    if prior.marker.Some? && prior.marker.value in j.incidents {
      AttachedIsReheard(j.incidents[prior.marker.value], d.event);
    }
    hide Enriched, Attached, Reheard, Question, RunRecordOf;
  }

  lemma EnrichedIs(prior: EventRecord, d: Delivery)
    ensures d.origin == OperatorOriginal ==>
              Enriched(prior, d) == EventRecord(
                if d.run.id.Some? then d.run.id else prior.runId, prior.marker, prior.payload,
                if d.run.id.Some? then d.run else prior.native, OperatorOriginal, d.bytes,
                if d.run.id.Some? then Question(d) else prior.unresolved, prior.at)
  {
  }

  lemma NotedRun(d: Delivery, marker: Option<Marker>, now: int)
    ensures d.run.id.Some? ==>
              RunRecordOf(d, marker, DuplicateEvent, now)
              == RunRecord(Some(d.event.eventId), marker, DuplicateEvent, Question(d), now, d.run)
  {
  }

  lemma AttachedIsReheard(inc: Incident, e: Event)
    ensures Reheard(inc, Attached(inc, e, false), e)
  {
  }

  /** An event ID names one event. */
  lemma SamePayload(b: Book, e: Event, events: set<Event>)
    requires BookInv(b) && b.delivered <= events && SenderLaw(events) && e in events && e.eventId in b.j.events
    ensures b.j.events[e.eventId].payload == e
  {
    assert EventOk(b.j, b.delivered, e.eventId);
    assert Coherent(b.j.events[e.eventId].payload, e);
  }

  /** What becomes of any delivery. */
  ghost predicate Answered(j: Journal, k: Journal, r: Result<Option<Marker>>, d: Delivery, env: Env) {
    if d.event.eventId in j.events then Repeated(j, k, r, d, env) else Received(j, k, r, d, env)
  }

  lemma DeliveryIsAnswered(s: Sys, events: set<Event>, d: Delivery, env: Env)
    requires SenderLaw(events) && Reachable(s, events) && d.event in events && Enabled(s, Deliver(d, env))
    ensures Answered(s.mem.j, Effect(s, Deliver(d, env)).mem.j, Process(s.mem.j, d, env).1, d, env)
  {
    hide Reachable, Enabled, Effect, SenderLaw, Process, Received, Repeated;
    if d.event.eventId in s.mem.j.events {
      RepeatIsReceived(s, events, d, env);
    } else {
      FirstDeliveryIsReceived(s, events, d, env);
    }
  }
}
