/** How an open incident comes to a wrong count: a run of deliveries, creates and saves after which the
    founding event of a discarded incident is delivered once more. */
module RefoundedIncident {
  import opened HealthEvents
  import opened IncidentJournal
  import opened IncidentInvariant
  import opened IncidentDelivery
  import opened IncidentPruning
  import opened IncidentRuns
  import IncidentTheorems

  // ---- the events ------------------------------------------------------------------------------

  /** Rounds until the event table is full; each delivers a failure and an escalation of one host. */
  const ROUNDS: nat := 512

  const EXTRA_ID: nat := 2 * ROUNDS + 1

  /** The round an event belongs to. */
  function RoundOf(id: nat): nat {
    if id == EXTRA_ID then ROUNDS else (id + 1) / 2
  }

  /** Every round has a host of its own. */
  function Host(k: nat): string {
    if k == 0 then "" else Host(k - 1) + "h"
  }

  function KindOf(id: nat): Kind {
    if id % 2 == 1 && id != EXTRA_ID then Failure else Escalation
  }

  /** The failure of round k has ID 2k - 1 and its escalation 2k; the last round has a second one. */
  function EventOf(id: nat): Event {
    var k := RoundOf(id);
    var n := if KindOf(id) == Failure then 1 else if id == EXTRA_ID then 3 else 2;
    Event(id, Host(k), "g", Tls, KindOf(id), k, n, id, Some(2 * k - 1), 1, 1, None, "", 0)
  }

  function MarkerOf(k: nat): Marker
    requires k > 0
  {
    Marker("g", 2 * k - 1)
  }

  function Sent(): set<Event> {
    set id | 1 <= id <= EXTRA_ID :: EventOf(id)
  }

  lemma SentIsLawful()
    ensures SenderLaw(Sent())
    ensures forall id | 1 <= id <= EXTRA_ID :: EventOf(id) in Sent()
  {
    forall e, f | e in Sent() && f in Sent()
      ensures Coherent(e, f)
    {
      var i :| 1 <= i <= EXTRA_ID && e == EventOf(i);
      var j :| 1 <= j <= EXTRA_ID && f == EventOf(j);
    }
  }

  // ---- what is stored for them -----------------------------------------------------------------

  function DeliveryOf(id: nat, run: nat): Delivery {
    Delivery(NativeRun(Some(run), true, 0, RunAdmitted, None, run), EventOf(id), NativePayload, None)
  }

  function Stores(id: nat): EventRecord
    requires id > 0
  {
    EventRecordOf(DeliveryOf(id, id), Some(MarkerOf(RoundOf(id))), id)
  }

  function Notes(id: nat): RunRecord
    requires id > 0
  {
    RunRecordOf(DeliveryOf(id, id), Some(MarkerOf(RoundOf(id))),
                if KindOf(id) == Failure then IncidentEvent else ClosedEpisodeObservation, id)
  }

  function EventsUpTo(n: nat): map<nat, EventRecord> {
    map id | 1 <= id <= n :: Stores(id)
  }

  function RunsUpTo(n: nat): map<nat, RunRecord> {
    map id | 1 <= id <= n :: Notes(id)
  }

  /** The incident of round k in some phase of its lifecycle. */
  function IncidentOf(k: nat, phase: Phase, issue: Option<nat>, attempts: nat, closed: bool): Incident
    requires k > 0
  {
    Incident("g", phase, issue, map[k := Episode(Tls, Host(k), false, 1)], 1, 2 * k - 1, Some(2 * k - 1), closed, true,
             attempts)
  }

  function ClosedOf(k: nat): Incident
    requires k > 0
  {
    IncidentOf(k, Created, Some(k), 1, true)
  }

  /** The first round whose incident is still retained after n rounds. */
  function Oldest(n: nat): (k: nat)
    ensures 0 < k <= n + 1
  {
    if n <= CLOSED_INCIDENT_LIMIT then 1 else n - CLOSED_INCIDENT_LIMIT + 1
  }

  function MarkersFrom(lo: nat, hi: nat): set<Marker>
    requires lo > 0
  {
    set k | lo <= k <= hi :: MarkerOf(k)
  }

  function RoundOfMarker(m: Marker): nat {
    (m.eventId + 1) / 2
  }

  lemma MarkersKnowRounds(lo: nat, hi: nat)
    requires lo > 0
    ensures forall m :: m in MarkersFrom(lo, hi) <==> lo <= RoundOfMarker(m) <= hi && m == MarkerOf(RoundOfMarker(m))
  {
    forall m | m in MarkersFrom(lo, hi)
      ensures lo <= RoundOfMarker(m) <= hi && m == MarkerOf(RoundOfMarker(m))
    {
      var k :| lo <= k <= hi && m == MarkerOf(k);
    }
  }

  lemma {:induction false} CountMarkers(lo: nat, hi: nat)
    requires 0 < lo <= hi + 1
    ensures |MarkersFrom(lo, hi)| == hi + 1 - lo
    decreases hi
  {
    MarkersKnowRounds(lo, hi);
    if lo == hi + 1 {
      assert MarkersFrom(lo, hi) == {};
    } else {
      CountMarkers(lo, hi - 1);
      MarkersKnowRounds(lo, hi - 1);
      assert MarkersFrom(lo, hi) == MarkersFrom(lo, hi - 1) + {MarkerOf(hi)};
    }
  }

  lemma {:induction false} CountEvents(n: nat)
    ensures |EventsUpTo(n)| == n && |RunsUpTo(n)| == n
  {
    hide Stores, Notes;
    if n > 0 {
      CountEvents(n - 1);
      assert EventsUpTo(n) == EventsUpTo(n - 1)[n := Stores(n)];
      assert RunsUpTo(n) == RunsUpTo(n - 1)[n := Notes(n)];
    } else {
      assert EventsUpTo(0) == map[] && RunsUpTo(0) == map[];
    }
  }

  function ClosedFrom(lo: nat, hi: nat): map<Marker, Incident>
    requires lo > 0
  {
    MarkersKnowRounds(lo, hi);
    map m | m in MarkersFrom(lo, hi) :: ClosedOf(RoundOfMarker(m))
  }

  /** The journal after n rounds. */
  function Aged(n: nat): Journal {
    Journal(RunsUpTo(2 * n), EventsUpTo(2 * n), ClosedFrom(Oldest(n), n), map[], map[], None)
  }

  /** The journal during round n, with its incident open. */
  function During(n: nat, inc: Incident): Journal
    requires n > 0
  {
    Journal(RunsUpTo(2 * n - 1), EventsUpTo(2 * n - 1), ClosedFrom(Oldest(n - 1), n - 1)[MarkerOf(n) := inc],
            map["g" := MarkerOf(n)], map[], None)
  }

  /** The journal at the end of round n, before it is saved. */
  function Ending(n: nat): Journal
    requires n > 0
  {
    Journal(RunsUpTo(2 * n), EventsUpTo(2 * n), ClosedFrom(Oldest(n - 1), n), map[], map[], None)
  }

  // ---- processing ------------------------------------------------------------------------------

  ghost function Enumerated<T(!new)>(s: set<T>): (q: seq<T>)
    ensures forall x :: x in s <==> x in q
  {
    if s == {} then [] else var x :| x in s; [x] + Enumerated(s - {x})
  }

  /** An environment that iterates the tables of a journal in some order. */
  ghost function Reads(j: Journal, e: Event, now: int, closed: Option<bool>): (env: Env)
    ensures CoversTables(env, j, e) && env.now == now && env.issueClosed == closed && env.authorized
  {
    Env(now, closed, true, Enumerated(j.incidents.Keys), Enumerated(j.events.Keys + {e.eventId}))
  }

  lemma {:induction false} NothingToAdopt(j: Journal, m: Marker, e: Event, ids: seq<nat>)
    requires m in j.incidents && forall id | id in j.events :: j.events[id].marker.Some?
    ensures AdoptAll(j, m, e, ids) == j
  {
    if ids != [] {
      NothingToAdopt(j, m, e, ids[..|ids| - 1]);
    }
  }

  /** The first fault of a group without an open incident, of an episode no closed incident lists. */
  lemma FaultFounds(j: Journal, d: Delivery, env: Env)
    requires d.event.group !in j.open && |j.incidents| < MAX_INCIDENTS && CoversTables(env, j, d.event)
    requires !RunConflict(j, d) && d.event.eventId !in j.events && d.event.kind != Recovery
    requires forall m | m in j.incidents :: !HoldsClosed(j, m, d.event)
    requires forall id | id in j.events :: j.events[id].marker.Some?
    ensures Process(j, d, env).0 == Admit(Found(j, d.event), Marker(d.event.group, d.event.eventId), d, IncidentEvent,
                                          env.now)
  {
    var m := Marker(d.event.group, d.event.eventId);
    assert FirstClosed(j, d.event, env.markers).None?;
    NothingToAdopt(Admit(Found(j, d.event), m, d, IncidentEvent, env.now), m, d.event, env.ids);
  }

  /** An event of an episode that exactly one closed incident lists, once the group has none open. */
  lemma ClosedEpisodeStores(j: Journal, k: Journal, d: Delivery, env: Env, m: Marker)
    requires OpenIncident(j, d.event.group, env) == (k, Done(None)) && k.events == j.events && k.runs == j.runs
    requires CoversTables(env, k, d.event)
    requires !RunConflict(j, d) && d.event.eventId !in j.events
    requires HoldsClosed(k, m, d.event) && forall n | HoldsClosed(k, n, d.event) :: n == m
    ensures Process(j, d, env).0 == Stored(k, d, Some(m), ClosedEpisodeObservation, env.now)
  {
    assert FirstClosed(k, d.event, env.markers) == Some(m);
  }

  lemma FailureIsOf(k: nat, id: nat)
    requires 0 < k <= ROUNDS && id == 2 * k - 1
    ensures RoundOf(id) == k && KindOf(id) == Failure
  {
    assert id % 2 == 1 && (id + 1) / 2 == k;
  }

  lemma FailureEvent(k: nat, id: nat)
    requires 0 < k <= ROUNDS && id == 2 * k - 1
    ensures EventOf(id) == Event(id, Host(k), "g", Tls, Failure, k, 1, id, Some(id), 1, 1, None, "", 0)
  {
    hide Host, RoundOf, KindOf;
    FailureIsOf(k, id);
  }

  lemma FreshIncident(k: nat)
    requires 0 < k <= ROUNDS
    ensures Joined(FoundedIncident(EventOf(2 * k - 1)), EventOf(2 * k - 1)) == IncidentOf(k, Pending, None, 0, false)
    ensures RoundOf(2 * k - 1) == k && KindOf(2 * k - 1) == Failure
  {
    hide Host, EventOf, RoundOf, KindOf;
    FailureIsOf(k, 2 * k - 1);
    FailureEvent(k, 2 * k - 1);
  }

  /** Only the incident of its own round lists an episode. */
  lemma ListsOwnRound(lo: nat, hi: nat, m: Marker)
    requires lo > 0 && m in ClosedFrom(lo, hi)
    ensures ClosedFrom(lo, hi)[m].episodes.Keys == {RoundOfMarker(m)} && ClosedFrom(lo, hi)[m].closed
    ensures ClosedFrom(lo, hi)[m].group == "g" && m == MarkerOf(RoundOfMarker(m)) && lo <= RoundOfMarker(m) <= hi
  {
    MarkersKnowRounds(lo, hi);
  }

  lemma RetainedAreFew(lo: nat, hi: nat)
    requires 0 < lo <= hi + 1
    ensures |ClosedFrom(lo, hi)| == hi + 1 - lo && Closed(ClosedFrom(lo, hi)) == ClosedFrom(lo, hi).Keys
    ensures |ClosedFrom(lo, hi).Keys| == hi + 1 - lo
  {
    CountMarkers(lo, hi);
    MarkersKnowRounds(lo, hi);
    assert ClosedFrom(lo, hi).Keys == MarkersFrom(lo, hi);
  }

  lemma AddEntry(n: nat)
    requires n > 0
    ensures EventsUpTo(n) == EventsUpTo(n - 1)[n := Stores(n)] && RunsUpTo(n) == RunsUpTo(n - 1)[n := Notes(n)]
  {
    hide Stores, Notes;
  }

  lemma AdmitShape(j: Journal, d: Delivery, now: int)
    requires d.run.id.Some?
    ensures var e := d.event; var m := Marker(e.group, e.eventId);
            Admit(Found(j, e), m, d, IncidentEvent, now)
            == j.(runs := j.runs[d.run.id.value := RunRecordOf(d, Some(m), IncidentEvent, now)],
                  events := j.events[e.eventId := EventRecordOf(d, Some(m), now)],
                  incidents := j.incidents[m := Joined(FoundedIncident(e), e)], open := j.open[e.group := m])
  {
    hide Joined;
  }

  lemma StoredShape(j: Journal, d: Delivery, m: Marker, now: int)
    requires d.run.id.Some?
    ensures Stored(j, d, Some(m), ClosedEpisodeObservation, now)
            == j.(runs := j.runs[d.run.id.value := RunRecordOf(d, Some(m), ClosedEpisodeObservation, now)],
                  events := j.events[d.event.eventId := EventRecordOf(d, Some(m), now)])
  {
  }

  /** Retained incidents list only the episodes of their own rounds. */
  lemma NoneHolds(lo: nat, hi: nat, j: Journal, e: Event)
    requires lo > 0 && j.incidents == ClosedFrom(lo, hi) && !(lo <= e.episodeId <= hi)
    ensures forall m :: !HoldsClosed(j, m, e)
  {
    forall m | m in j.incidents
      ensures !HoldsClosed(j, m, e)
    {
      ListsOwnRound(lo, hi, m);
    }
  }

  lemma OnlyItsOwnHolds(lo: nat, hi: nat, j: Journal, e: Event)
    requires 0 < lo <= e.episodeId <= hi && j.incidents == ClosedFrom(lo, hi) && e.group == "g"
    ensures HoldsClosed(j, MarkerOf(e.episodeId), e)
    ensures forall m | HoldsClosed(j, m, e) :: m == MarkerOf(e.episodeId)
  {
    MarkersKnowRounds(lo, hi);
    ListsOwnRound(lo, hi, MarkerOf(e.episodeId));
    forall m | HoldsClosed(j, m, e)
      ensures m == MarkerOf(e.episodeId)
    {
      ListsOwnRound(lo, hi, m);
    }
  }

  lemma EventsAreMarked(n: nat)
    ensures forall id | id in EventsUpTo(n) :: EventsUpTo(n)[id].marker.Some?
  {
  }

  lemma NotYet(j: Journal, id: nat, run: nat)
    requires id !in j.events && run !in j.runs
    ensures !RunConflict(j, DeliveryOf(id, run)) && DeliveryOf(id, run).event.eventId !in j.events
  {
  }

  lemma UpToIsShort(n: nat, id: nat)
    requires id > n
    ensures id !in EventsUpTo(n) && id !in RunsUpTo(n)
  {
  }

  lemma FailureRecords(n: nat)
    requires 0 < n <= ROUNDS
    ensures var d := DeliveryOf(2 * n - 1, 2 * n - 1);
            && EventRecordOf(d, Some(MarkerOf(n)), 2 * n - 1) == Stores(2 * n - 1)
            && RunRecordOf(d, Some(MarkerOf(n)), IncidentEvent, 2 * n - 1) == Notes(2 * n - 1)
            && d.run.id == Some(2 * n - 1) && d.event == EventOf(2 * n - 1)
            && d.event.eventId == 2 * n - 1 && d.event.group == "g" && d.event.episodeId == n && d.event.kind == Failure
  {
    hide Host;
  }

  lemma EscalationRecords(n: nat)
    requires 0 < n <= ROUNDS
    ensures var d := DeliveryOf(2 * n, 2 * n);
            && EventRecordOf(d, Some(MarkerOf(n)), 2 * n) == Stores(2 * n)
            && RunRecordOf(d, Some(MarkerOf(n)), ClosedEpisodeObservation, 2 * n) == Notes(2 * n)
            && d.run.id == Some(2 * n) && d.event == EventOf(2 * n)
            && d.event.eventId == 2 * n && d.event.group == "g" && d.event.episodeId == n && d.event.kind == Escalation
  {
    hide Host;
  }

  /** The same equality over the entries the founding writes. */
  lemma FoundingIs(n: nat)
    requires 0 < n <= ROUNDS
    ensures Aged(n - 1).(runs := Aged(n - 1).runs[2 * n - 1 := Notes(2 * n - 1)],
                         events := Aged(n - 1).events[2 * n - 1 := Stores(2 * n - 1)],
                         incidents := Aged(n - 1).incidents[MarkerOf(n) := IncidentOf(n, Pending, None, 0, false)],
                         open := map["g" := MarkerOf(n)])
            == During(n, IncidentOf(n, Pending, None, 0, false))
  {
    AddEntry(2 * n - 1);
    hide ClosedFrom, EventsUpTo, RunsUpTo, Stores, Notes, Oldest, IncidentOf, MarkerOf;
    assert Aged(n - 1).runs == RunsUpTo(2 * n - 2) && Aged(n - 1).events == EventsUpTo(2 * n - 2);
  }

  /** Founding the incident of a round turns the journal before it into the one during it. */
  lemma FoundingRound(n: nat)
    requires 0 < n <= ROUNDS
    ensures Admit(Found(Aged(n - 1), EventOf(2 * n - 1)), MarkerOf(n), DeliveryOf(2 * n - 1, 2 * n - 1), IncidentEvent,
                  2 * n - 1)
            == During(n, IncidentOf(n, Pending, None, 0, false))
  {
    FailureRecords(n);
    FreshIncident(n);
    AddEntry(2 * n - 1);
    AdmitShape(Aged(n - 1), DeliveryOf(2 * n - 1, 2 * n - 1), 2 * n - 1);
    assert map["g" := MarkerOf(n)] == map[]["g" := MarkerOf(n)];
    FoundingIs(n);
  }

  /** Delivering the failure of round n. */
  lemma FailureOfRound(n: nat, env: Env)
    requires 0 < n <= ROUNDS && CoversTables(env, Aged(n - 1), EventOf(2 * n - 1)) && env.now == 2 * n - 1
    ensures Process(Aged(n - 1), DeliveryOf(2 * n - 1, 2 * n - 1), env).0
            == During(n, IncidentOf(n, Pending, None, 0, false))
  {
    hide ClosedFrom, EventsUpTo, RunsUpTo, Process, Admit, Found, During, HoldsClosed, CoversTables, RunConflict, Host;
    var j, id := Aged(n - 1), 2 * n - 1;
    FreshIncident(n);
    RetainedAreFew(Oldest(n - 1), n - 1);
    NoneHolds(Oldest(n - 1), n - 1, j, EventOf(id));
    EventsAreMarked(2 * n - 2);
    UpToIsShort(2 * n - 2, id);
    NotYet(j, id, id);
    FaultFounds(j, DeliveryOf(id, id), env);
    FoundingRound(n);
  }

  /** The journal during a round, once its incident is closed. */
  function Closing(n: nat): Journal
    requires n > 0
  {
    Journal(RunsUpTo(2 * n - 1), EventsUpTo(2 * n - 1), ClosedFrom(Oldest(n - 1), n), map[], map[], None)
  }

  lemma ClosesTheOne(j: Journal, g: string, m: Marker, env: Env)
    requires j.open == map[g := m] && m in j.incidents && j.incidents[m].issueId.Some?
    requires env.issueClosed == Some(true) && env.authorized
    ensures OpenIncident(j, g, env) == (j.(incidents := j.incidents[m := j.incidents[m].(closed := true)],
                                           open := map[]), Done(None))
  {
    assert j.open - {g} == map[];
  }

  lemma ClosingRound(n: nat, env: Env)
    requires 0 < n <= ROUNDS && env.issueClosed == Some(true) && env.authorized
    ensures OpenIncident(During(n, IncidentOf(n, Created, Some(n), 1, false)), "g", env) == (Closing(n), Done(None))
  {
    hide ClosedFrom, EventsUpTo, RunsUpTo, Host, Oldest, OpenIncident, IncidentOf, ClosedOf, MarkerOf;
    var j := During(n, IncidentOf(n, Created, Some(n), 1, false));
    CreatedThenClosed(n);
    ClosesTheOne(j, "g", MarkerOf(n), env);
    ClosedGrows(Oldest(n - 1), n);
    assert j.incidents[MarkerOf(n) := ClosedOf(n)] == Closing(n).incidents;
  }

  lemma CreatedThenClosed(n: nat)
    requires n > 0
    ensures IncidentOf(n, Created, Some(n), 1, false).(closed := true) == ClosedOf(n)
    ensures IncidentOf(n, Created, Some(n), 1, false).issueId.Some?
  {
  }

  lemma StoringIs(n: nat, id: nat)
    requires 0 < n <= ROUNDS && id == 2 * n
    ensures Closing(n).(runs := Closing(n).runs[id := Notes(id)], events := Closing(n).events[id := Stores(id)])
            == Ending(n)
  {
    hide ClosedFrom, EventsUpTo, RunsUpTo, Stores, Notes, Oldest;
    AddEntry(id);
    var j := Closing(n);
    assert j.runs[id := Notes(id)] == Ending(n).runs;
    assert j.events[id := Stores(id)] == Ending(n).events;
  }

  lemma StoringRound(n: nat)
    requires 0 < n <= ROUNDS
    ensures Stored(Closing(n), DeliveryOf(2 * n, 2 * n), Some(MarkerOf(n)), ClosedEpisodeObservation, 2 * n)
            == Ending(n)
    ensures EventOf(2 * n).group == "g" && EventOf(2 * n).episodeId == n
  {
    EscalationRecords(n);
    StoredShape(Closing(n), DeliveryOf(2 * n, 2 * n), MarkerOf(n), 2 * n);
    StoringIs(n, 2 * n);
  }

  /** Delivering the escalation of round n, after maintenance closed its issue. */
  lemma EscalationOfRound(n: nat, env: Env)
    requires 0 < n <= ROUNDS && env.now == 2 * n && env.issueClosed == Some(true) && env.authorized
    requires CoversTables(env, During(n, IncidentOf(n, Created, Some(n), 1, false)), EventOf(2 * n))
    ensures Process(During(n, IncidentOf(n, Created, Some(n), 1, false)), DeliveryOf(2 * n, 2 * n), env).0 == Ending(n)
  {
    var j, id := During(n, IncidentOf(n, Created, Some(n), 1, false)), 2 * n;
    ClosingRound(n, env);
    StoringRound(n);
    ClosedGrows(Oldest(n - 1), n);
    assert Closing(n).incidents.Keys <= j.incidents.Keys;
    CoversLater(env, j, Closing(n), EventOf(id));
    hide ClosedFrom, EventsUpTo, RunsUpTo, Process, Stored, HoldsClosed, CoversTables, RunConflict, OpenIncident, Host,
        Ending;
    OnlyItsOwnHolds(Oldest(n - 1), n, Closing(n), EventOf(id));
    UpToIsShort(2 * n - 1, id);
    NotYet(j, id, id);
    ClosedEpisodeStores(j, Closing(n), DeliveryOf(id, id), env, MarkerOf(n));
  }

  lemma CoversLater(env: Env, j: Journal, k: Journal, e: Event)
    requires CoversTables(env, j, e) && k.incidents.Keys <= j.incidents.Keys && k.events == j.events
    ensures CoversTables(env, k, e)
  {
  }

  lemma ClosedGrows(lo: nat, hi: nat)
    requires 0 < lo <= hi
    ensures ClosedFrom(lo, hi) == ClosedFrom(lo, hi - 1)[MarkerOf(hi) := ClosedOf(hi)]
    ensures MarkerOf(hi) in ClosedFrom(lo, hi) && ClosedFrom(lo, hi)[MarkerOf(hi)] == ClosedOf(hi)
  {
    MarkersKnowRounds(lo, hi);
    MarkersKnowRounds(lo, hi - 1);
    hide ClosedOf;
  }

  // ---- runs that save as the program does -------------------------------------------------------

  /** Every write follows a pruning, and every pruning discards what `save` discards. */
  ghost predicate SavesDuly(actions: seq<Action>) {
    actions == [] ||
    var before, a := actions[..|actions| - 1], actions[|actions| - 1];
    && SavesDuly(before)
    && (a.Commit? ==> before != [] && before[|before| - 1].Prune?)
    && (a.Prune? ==> Run(INITIAL, before).Some? && SavedAs(Run(INITIAL, before).value.mem.j, a.left))
  }

  ghost predicate Led(past: seq<Action>, s: Sys) {
    DeliversFrom(past, Sent()) && Run(INITIAL, past) == Some(s) && SavesDuly(past)
  }

  /** Some run of the events sent leads here and saves as the program does. */
  ghost predicate Attained(s: Sys) {
    exists past :: Led(past, s)
  }

  lemma Goes(s: Sys, a: Action)
    requires Attained(s) && Enabled(s, a) && !a.Prune? && !a.Commit? && (a.Deliver? ==> a.delivery.event in Sent())
    ensures Attained(Effect(s, a))
  {
    hide Enabled, Effect, Sent;
    var past :| Led(past, s);
    assert (past + [a])[..|past|] == past;
    assert Led(past + [a], Effect(s, a));
  }

  lemma Writes(s: Sys, k: Journal)
    requires Attained(s) && SavedAs(s.mem.j, k)
    ensures Enabled(s, Prune(k)) && Enabled(Effect(s, Prune(k)), Commit)
    ensures Attained(Effect(Effect(s, Prune(k)), Commit))
  {
    hide Economical, Thinned, DropsClosed, KeepsLatest, Sent;
    var past :| Led(past, s);
    var t := Effect(s, Prune(k));
    hide Effect;
    assert (past + [Prune(k)])[..|past|] == past;
    assert Led(past + [Prune(k)], t);
    var pruned := past + [Prune(k)];
    assert t.mem.j == k by { assert Enabled(s, Prune(k)); }
    hide Prunes, SavedAs;
    assert (pruned + [Commit])[..|pruned|] == pruned;
    assert Led(pruned + [Commit], Effect(t, Commit));
  }

  /** The state has this journal and progress, and no issue exists for the rounds after the n-th. */
  ghost predicate At(s: Sys, j: Journal, p: Progress, n: nat) {
    && Attained(s) && s.mem.j == j && s.progress == p
    && (forall i | i > n :: s.landed[MarkerOf(i)] == 0) && (forall m :: s.landed[m] <= s.creates[m])
  }

  lemma SaveAt(s: Sys, j: Journal, k: Journal, p: Progress, n: nat) returns (t: Sys)
    requires At(s, j, p, n) && SavedAs(j, k)
    ensures At(t, k, match p case Intended(m) => Recorded(m) case q => q, n)
  {
    hide SavedAs, Attained;
    Writes(s, k);
    t := Effect(Effect(s, Prune(k)), Commit);
  }

  /** A journal within all its limits is saved as it is. */
  lemma SavedUnchanged(j: Journal)
    requires WithinLimits(j) && |Closed(j.incidents)| <= CLOSED_INCIDENT_LIMIT
    ensures SavedAs(j, j)
  {
    hide PinnedRuns, PinnedEvents, PinnedInputs;
  }

  lemma OneOpen(c: map<Marker, Incident>, m: Marker, inc: Incident)
    requires !inc.closed
    ensures |c[m := inc]| <= |c| + 1 && |Closed(c[m := inc])| <= |Closed(c)|
  {
    assert c[m := inc].Keys == c.Keys + {m};
    assert Closed(c[m := inc]) == Closed(c) - {m};
  }

  lemma DuringIsSaved(n: nat, inc: Incident)
    requires 0 < n <= ROUNDS && !inc.closed
    ensures SavedAs(During(n, inc), During(n, inc))
  {
    hide ClosedFrom, EventsUpTo, RunsUpTo, MarkerOf, SavedAs, Closed;
    CountEvents(2 * n - 1);
    RetainedAreFew(Oldest(n - 1), n - 1);
    OneOpen(ClosedFrom(Oldest(n - 1), n - 1), MarkerOf(n), inc);
    SavedUnchanged(During(n, inc));
  }

  lemma DuringHas(n: nat, inc: Incident, next: Incident)
    requires n > 0
    ensures MarkerOf(n) in During(n, inc).incidents && During(n, inc).incidents[MarkerOf(n)] == inc
    ensures During(n, inc).(incidents := During(n, inc).incidents[MarkerOf(n) := next]) == During(n, next)
  {
    hide ClosedFrom, EventsUpTo, RunsUpTo, MarkerOf, Oldest;
  }

  /** The issue of a round's incident is looked up, its intent saved, and its create asked for. */
  lemma IssueAsked(s: Sys, n: nat) returns (t: Sys)
    requires 0 < n <= ROUNDS && At(s, During(n, IncidentOf(n, Pending, None, 0, false)), Idle, n - 1)
    ensures At(t, During(n, IncidentOf(n, Uncertain, None, 1, false)), Recorded(MarkerOf(n)), n - 1)
  {
    hide Attained, During, MarkerOf, Prunes, SavedAs, CoversTables;
    var m, pending, uncertain := MarkerOf(n), IncidentOf(n, Pending, None, 0, false),
        IncidentOf(n, Uncertain, None, 1, false);
    DuringHas(n, pending, uncertain);
    Goes(s, FindAbsent(m));
    var seen := Effect(s, FindAbsent(m));
    assert At(seen, During(n, pending), SawAbsent(m), n - 1);
    Goes(seen, Intend(m));
    var intended := Effect(seen, Intend(m));
    assert At(intended, During(n, uncertain), Intended(m), n - 1);
    DuringIsSaved(n, uncertain);
    t := SaveAt(intended, During(n, uncertain), During(n, uncertain), Intended(m), n - 1);
  }

  /** The create takes effect and its reply arrives. */
  lemma IssueCreated(s: Sys, n: nat) returns (t: Sys)
    requires 0 < n <= ROUNDS && At(s, During(n, IncidentOf(n, Uncertain, None, 1, false)), Recorded(MarkerOf(n)), n - 1)
    ensures At(t, During(n, IncidentOf(n, Created, Some(n), 1, false)), Idle, n)
  {
    hide Attained, During, Prunes, SavedAs, CoversTables;
    var m, uncertain, created := MarkerOf(n), IncidentOf(n, Uncertain, None, 1, false),
        IncidentOf(n, Created, Some(n), 1, false);
    DuringHas(n, uncertain, created);
    Goes(s, Create(m));
    var asked := Effect(s, Create(m));
    Goes(asked, Land(m));
    var landed := Effect(asked, Land(m));
    assert forall i | i > n :: landed.landed[MarkerOf(i)] == 0;
    Goes(landed, Learn(m, n));
    var learnt := Effect(landed, Learn(m, n));
    DuringIsSaved(n, created);
    t := SaveAt(learnt, During(n, created), During(n, created), Idle, n);
  }

  /** Saving at the end of a round drops the oldest closed incident beyond the limit. */
  lemma DropsOldest(n: nat)
    requires n > 0
    ensures KeepsLatest(ClosedFrom(Oldest(n - 1), n), ClosedFrom(Oldest(n), n))
  {
    RetainedAreFew(Oldest(n - 1), n);
    RetainedAreFew(Oldest(n), n);
    MarkersKnowRounds(Oldest(n - 1), n);
    MarkersKnowRounds(Oldest(n), n);
    hide Host;
  }

  lemma EndingIsSaved(n: nat)
    requires 0 < n <= ROUNDS
    ensures SavedAs(Ending(n), Aged(n))
  {
    hide ClosedFrom, EventsUpTo, RunsUpTo, MarkerOf, Closed, PinnedEvents, PinnedRuns, PinnedInputs, KeepsLatest,
        DropsClosed;
    CountEvents(2 * n);
    RetainedAreFew(Oldest(n), n);
    DropsOldest(n);
    KeptAreLatest(Ending(n).incidents, Aged(n).incidents);
  }

  lemma KeptAreLatest(a: map<Marker, Incident>, b: map<Marker, Incident>)
    requires KeepsLatest(a, b)
    ensures DropsClosed(a, b)
  {
  }

  /** One delivery of an event sent. */
  lemma DeliverAt(s: Sys, j: Journal, k: Journal, d: Delivery, env: Env, n: nat) returns (t: Sys)
    requires At(s, j, Idle, n) && d.event in Sent() && CoversTables(env, j, d.event) && Process(j, d, env).0 == k
    ensures At(t, k, Idle, n)
  {
    hide Process, Attained, Sent, CoversTables;
    Goes(s, Deliver(d, env));
    t := Effect(s, Deliver(d, env));
  }

  /** One round: a failure founds an incident, its issue is created, maintenance closes it, and the
      escalation closes the incident. */
  lemma Round(s: Sys, n: nat) returns (t: Sys)
    requires 0 < n <= ROUNDS && At(s, Aged(n - 1), Idle, n - 1)
    ensures At(t, Aged(n), Idle, n)
  {
    hide At, Aged, During, Ending, Sent, EventOf, Process, CoversTables, SavedAs, IncidentOf;
    SentIsLawful();
    var env := Reads(Aged(n - 1), EventOf(2 * n - 1), 2 * n - 1, None);
    FailureOfRound(n, env);
    var pending, created := During(n, IncidentOf(n, Pending, None, 0, false)),
        During(n, IncidentOf(n, Created, Some(n), 1, false));
    t := DeliverAt(s, Aged(n - 1), pending, DeliveryOf(2 * n - 1, 2 * n - 1), env, n - 1);
    t := IssueAsked(t, n);
    t := IssueCreated(t, n);
    env := Reads(created, EventOf(2 * n), 2 * n, Some(true));
    EscalationOfRound(n, env);
    t := DeliverAt(t, created, Ending(n), DeliveryOf(2 * n, 2 * n), env, n);
    EndingIsSaved(n);
    t := SaveAt(t, Ending(n), Aged(n), Idle, n);
  }

  lemma Start() returns (t: Sys)
    ensures At(t, Aged(0), Idle, 0)
  {
    hide Sent, Stores, Notes, ClosedOf, MarkerOf;
    t := INITIAL;
    assert Led([], INITIAL);
    assert RunsUpTo(0) == map[] && EventsUpTo(0) == map[] && ClosedFrom(1, 0) == map[];
  }

  lemma {:induction false} Rounds(n: nat) returns (t: Sys)
    requires n <= ROUNDS
    ensures At(t, Aged(n), Idle, n)
  {
    hide At, Aged;
    if n == 0 {
      t := Start();
    } else {
      t := Rounds(n - 1);
      t := Round(t, n);
    }
  }

  // ---- the founding event once more -------------------------------------------------------------

  /** The journal with its event table one above the limit. */
  function Full(): Journal {
    Journal(RunsUpTo(EXTRA_ID), EventsUpTo(EXTRA_ID), ClosedFrom(Oldest(ROUNDS), ROUNDS), map[], map[], None)
  }

  /** The same journal saved: the oldest run and the oldest event are gone. */
  function Pruned(): Journal {
    Full().(runs := RunsUpTo(EXTRA_ID) - {1}, events := EventsUpTo(EXTRA_ID) - {1})
  }

  const RETRY_RUN: nat := EXTRA_ID + 1

  lemma ExtraIsStored(env: Env)
    requires CoversTables(env, Aged(ROUNDS), EventOf(EXTRA_ID)) && env.now == EXTRA_ID
    ensures Process(Aged(ROUNDS), DeliveryOf(EXTRA_ID, EXTRA_ID), env).0 == Full()
  {
    hide ClosedFrom, EventsUpTo, RunsUpTo, Process, Stored, HoldsClosed, CoversTables, RunConflict, Host;
    var j, d, m := Aged(ROUNDS), DeliveryOf(EXTRA_ID, EXTRA_ID), MarkerOf(ROUNDS);
    OnlyItsOwnHolds(Oldest(ROUNDS), ROUNDS, j, EventOf(EXTRA_ID));
    UpToIsShort(2 * ROUNDS, EXTRA_ID);
    NotYet(j, EXTRA_ID, EXTRA_ID);
    ClosedEpisodeStores(j, j, d, env, m);
    StoredShape(j, d, m, EXTRA_ID);
    AddEntry(EXTRA_ID);
  }

  lemma DropsFirst<T>(t: map<nat, T>, pinned: set<nat>, at: T -> int)
    requires |t| == JOURNAL_LIMIT + 1 && 1 in t && 1 !in pinned && forall k | k in t :: at(t[1]) <= at(t[k])
    ensures Economical(t, t - {1}, pinned, at) && Thinned(t, t - {1}, pinned) && |t - {1}| == JOURNAL_LIMIT
  {
    assert (t - {1}).Keys == t.Keys - {1};
  }

  lemma FirstIsOldest(n: nat)
    requires n > 0
    ensures 1 in RunsUpTo(n) && forall id | id in RunsUpTo(n) :: RunAge(RunsUpTo(n)[1]) <= RunAge(RunsUpTo(n)[id])
    ensures 1 in EventsUpTo(n) && forall id | id in EventsUpTo(n) ::
              EventAge(EventsUpTo(n)[1]) <= EventAge(EventsUpTo(n)[id])
  {
    hide EventOf, RoundOf, MarkerOf, KindOf;
  }

  /** Nothing holds the first event or its run: the incident they name is no longer retained. */
  lemma FirstIsUnpinned()
    ensures 1 !in PinnedRuns(Full()) && 1 !in PinnedEvents(Full())
  {
    MarkersKnowRounds(Oldest(ROUNDS), ROUNDS);
    hide Host;
    assert Full().runs[1] == Notes(1) && Full().events[1] == Stores(1);
    assert Stores(1).marker == Some(MarkerOf(1)) && Notes(1).marker == Some(MarkerOf(1));
    assert MarkerOf(1) !in Full().incidents;
  }

  lemma FullIsSaved()
    ensures SavedAs(Full(), Pruned())
  {
    hide ClosedFrom, EventsUpTo, RunsUpTo, Closed, PinnedRuns, PinnedEvents, PinnedInputs, KeepsLatest, Economical,
        Thinned;
    FirstIsUnpinned();
    FirstIsOldest(EXTRA_ID);
    CountEvents(EXTRA_ID);
    DropsFirst(Full().runs, PinnedRuns(Full()), RunAge);
    DropsFirst(Full().events, PinnedEvents(Full()), EventAge);
    RetainedAreFew(Oldest(ROUNDS), ROUNDS);
    InputsStay(PinnedInputs(Full().(events := Pruned().events)));
    SameIncidentsKept(Full().incidents);
  }

  lemma InputsStay(pinned: set<nat>)
    ensures Economical<InputRecord>(map[], map[], pinned, InputAge) && Thinned<InputRecord>(map[], map[], pinned)
  {
  }

  lemma SameIncidentsKept(a: map<Marker, Incident>)
    requires |Closed(a)| <= CLOSED_INCIDENT_LIMIT
    ensures KeepsLatest(a, a) && DropsClosed(a, a)
  {
  }

  // The first event again: its incident is founded once more, over the escalation still stored.

  lemma FirstFoundsAgain(env: Env)
    requires CoversTables(env, Pruned(), EventOf(1)) && env.now == RETRY_RUN
    ensures var d := DeliveryOf(1, RETRY_RUN);
            Process(Pruned(), d, env).0 == Admit(Found(Pruned(), EventOf(1)), MarkerOf(1), d, IncidentEvent, RETRY_RUN)
  {
    hide ClosedFrom, EventsUpTo, RunsUpTo, Process, Admit, Found, HoldsClosed, CoversTables, RunConflict, Host;
    RetainedAreFew(Oldest(ROUNDS), ROUNDS);
    NoneHolds(Oldest(ROUNDS), ROUNDS, Pruned(), EventOf(1));
    EventsAreMarked(EXTRA_ID);
    UpToIsShort(EXTRA_ID, RETRY_RUN);
    NotYet(Pruned(), 1, RETRY_RUN);
    FaultFounds(Pruned(), DeliveryOf(1, RETRY_RUN), env);
  }

  lemma CountsOneOfTwo(k: Journal)
    requires k == Admit(Found(Pruned(), EventOf(1)), MarkerOf(1), DeliveryOf(1, RETRY_RUN), IncidentEvent, RETRY_RUN)
    ensures MarkerOf(1) in k.incidents && !k.incidents[MarkerOf(1)].closed && k.incidents[MarkerOf(1)].eventCount == 1
    ensures |Payloads(k, MarkerOf(1))| >= 2
  {
    AdmitShape(Pruned(), DeliveryOf(1, RETRY_RUN), RETRY_RUN);
    FreshIncident(1);
    hide Admit, Found, Host, ClosedFrom, RunsUpTo;
    var m := MarkerOf(1);
    assert k.events[1].payload == EventOf(1) && k.events[1].marker == Some(m);
    assert k.events[2] == Stores(2);
    assert k.events[2].payload == EventOf(2) && k.events[2].marker == Some(m);
    assert {EventOf(1), EventOf(2)} <= Payloads(k, m);
    TwoAtLeast(Payloads(k, m), EventOf(1), EventOf(2));
  }

  lemma TwoAtLeast<T>(s: set<T>, x: T, y: T)
    requires x != y && {x, y} <= s
    ensures |s| >= 2
  {
    assert s == {x, y} + (s - {x, y});
  }

  /** The count of an open incident can be wrong: these are events of lawful senders, and a run of the
      reconciler that delivers only them and saves as the program does ends with an open incident that
      counts one event while two stored events carry its marker. */
  lemma RefoundedIncidentMiscounts()
    ensures SenderLaw(Sent())
    ensures exists s ::
              Attained(s) && IncidentTheorems.Reachable(s, Sent()) && IncidentTheorems.MiscountsAt(s.mem, MarkerOf(1))
  {
    hide At, Aged, Full, Pruned, Sent, EventOf, Process, CoversTables, SavedAs, Admit, Found, MarkerOf;
    SentIsLawful();
    var s := Rounds(ROUNDS);
    var env := Reads(Aged(ROUNDS), EventOf(EXTRA_ID), EXTRA_ID, None);
    ExtraIsStored(env);
    s := DeliverAt(s, Aged(ROUNDS), Full(), DeliveryOf(EXTRA_ID, EXTRA_ID), env, ROUNDS);
    FullIsSaved();
    s := SaveAt(s, Full(), Pruned(), Idle, ROUNDS);
    env := Reads(Pruned(), EventOf(1), RETRY_RUN, None);
    FirstFoundsAgain(env);
    var k := Process(Pruned(), DeliveryOf(1, RETRY_RUN), env).0;
    s := DeliverAt(s, Pruned(), k, DeliveryOf(1, RETRY_RUN), env, ROUNDS);
    CountsOneOfTwo(k);
    AtMiscounts(s, k);
  }

  lemma AtMiscounts(s: Sys, k: Journal)
    requires At(s, k, Idle, ROUNDS)
    requires MarkerOf(1) in k.incidents && !k.incidents[MarkerOf(1)].closed && k.incidents[MarkerOf(1)].eventCount == 1
    requires |Payloads(k, MarkerOf(1))| >= 2
    ensures Attained(s) && IncidentTheorems.Reachable(s, Sent()) && IncidentTheorems.MiscountsAt(s.mem, MarkerOf(1))
  {
    hide Sent, Payloads, SavesDuly;
    var past :| Led(past, s);
  }
}
