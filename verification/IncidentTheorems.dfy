/** What every run of the reconciler guarantees. */
module IncidentTheorems {
  import opened HealthEvents
  import opened IncidentJournal
  import opened IncidentEpisodes
  import opened IncidentInvariant
  import opened IncidentDelivery
  import opened IncidentPruning
  import opened IncidentRuns

  /** `s` is reached by some run that delivers only events of this set. */
  ghost predicate Reachable(s: Sys, events: set<Event>) {
    exists actions :: DeliversFrom(actions, events) && Run(INITIAL, actions) == Some(s)
  }

  lemma ReachableInv(s: Sys, events: set<Event>)
    requires SenderLaw(events) && Reachable(s, events)
    ensures SysInv(s, events)
  {
    hide SysInv;
    var actions :| DeliversFrom(actions, events) && Run(INITIAL, actions) == Some(s);
    RunKeepsInv(actions, events);
  }

  lemma ReachableBook(s: Sys, events: set<Event>)
    requires SenderLaw(events) && Reachable(s, events)
    ensures BookInv(s.mem) && BookInv(s.disk)
  {
    hide BookInv, CreateInv;
    ReachableInv(s, events);
  }

  // ---- creating issues -------------------------------------------------------------------------

  /** At most one create is ever issued per marker, over crashes, lost replies, late landings, and
      markers whose incident was discarded and founded again; so no marker ever has two issues. */
  lemma AtMostOneCreate(s: Sys, events: set<Event>, m: Marker)
    requires SenderLaw(events) && Reachable(s, events)
    ensures s.landed[m] <= s.creates[m] <= 1
  {
    hide BookInv;
    ReachableInv(s, events);
  }

  /** A create is issued only for an incident whose intent is already on disk, and never again. */
  lemma IntentPrecedesCreate(s: Sys, events: set<Event>, m: Marker)
    requires SenderLaw(events) && Reachable(s, events) && Enabled(s, Create(m))
    ensures HasPhase(s.disk.j, m, Uncertain) && s.creates[m] == 0
  {
    hide BookInv;
    ReachableInv(s, events);
  }

  /** Between two restarts the phase in memory never moves back. */
  lemma PhaseInMemory(s: Sys, events: set<Event>, a: Action, m: Marker)
    requires SenderLaw(events) && SysInv(s, events) && Enabled(s, a) && !a.Restart?
    requires a.Deliver? ==> a.delivery.event in events
    requires m in s.mem.j.incidents && Effect(s, a).mem.dropped[m] == s.mem.dropped[m]
    ensures m in Effect(s, a).mem.j.incidents
    ensures Rank(s.mem.j.incidents[m].phase) <= Rank(Effect(s, a).mem.j.incidents[m].phase)
  {
    hide BookInv, CreateInv, Process, Discarding;
    if a.Deliver? {
      assert s.mem.delivered + {a.delivery.event} <= events;
      DeliveryLives(s.mem, a.delivery, a.env);
    } else if a.Prune? {
      DiscardsCounted(s.mem, a.left, m);
    }
  }

  /** The count of a marker's discards tells whether its incident was discarded just now. */
  lemma DiscardsCounted(b: Book, k: Journal, m: Marker)
    ensures Discarding(b, k).dropped[m] == b.dropped[m] + (if m in b.j.incidents && m !in k.incidents then 1 else 0)
  {
  }

  lemma DropsGrow(s: Sys, a: Action, m: Marker)
    requires Enabled(s, a)
    ensures a.Restart? || s.mem.dropped[m] <= Effect(s, a).mem.dropped[m]
  {
    hide Discarding, AfterDelivery, Prunes, CoversTables;
    if a.Prune? {
      DiscardsCounted(s.mem, a.left, m);
    } else if a.Deliver? {
      DeliveryDropsNone(s.mem, a.delivery, a.env);
    }
  }

  lemma DeliveryDropsNone(b: Book, d: Delivery, env: Env)
    ensures AfterDelivery(b, d, env).dropped == b.dropped
  {
  }

  /** Memory is never behind the file: it knows every incident saved, unless it has discarded that one since,
      and its phase is at least the one saved. */
  ghost predicate MemoryAhead(s: Sys) {
    forall m :: AheadAt(s, m)
  }

  ghost predicate AheadAt(s: Sys, m: Marker) {
    && s.disk.dropped[m] <= s.mem.dropped[m]
    && (m in s.disk.j.incidents && s.mem.dropped[m] == s.disk.dropped[m] ==>
          m in s.mem.j.incidents && Rank(s.disk.j.incidents[m].phase) <= Rank(s.mem.j.incidents[m].phase))
  }

  lemma StepKeepsAhead(s: Sys, a: Action, events: set<Event>)
    requires SenderLaw(events) && SysInv(s, events) && Enabled(s, a) && (a.Deliver? ==> a.delivery.event in events)
    requires MemoryAhead(s)
    ensures MemoryAhead(Effect(s, a))
  {
    hide SysInv, AheadAt;
    forall m
      ensures AheadAt(Effect(s, a), m)
    {
      StepKeepsAheadAt(s, a, events, m);
    }
  }

  lemma StepKeepsAheadAt(s: Sys, a: Action, events: set<Event>, m: Marker)
    requires SenderLaw(events) && SysInv(s, events) && Enabled(s, a) && (a.Deliver? ==> a.delivery.event in events)
    requires AheadAt(s, m)
    ensures AheadAt(Effect(s, a), m)
  {
    hide SysInv, Prunes, CoversTables, AfterDelivery, Discarding;
    var t := Effect(s, a);
    DropsGrow(s, a, m);
    if a.Restart? || a.Commit? {
      assert t.mem == t.disk;
    } else {
      assert t.disk == s.disk;
      hide Enabled, Effect;
      if m in t.disk.j.incidents && t.mem.dropped[m] == t.disk.dropped[m] {
        PhaseInMemory(s, events, a, m);
      }
    }
  }

  lemma {:induction false} RunKeepsAhead(actions: seq<Action>, events: set<Event>)
    requires SenderLaw(events) && DeliversFrom(actions, events) && Run(INITIAL, actions).Some?
    ensures MemoryAhead(Run(INITIAL, actions).value)
  {
    if actions != [] {
      hide SysInv, MemoryAhead, Enabled, Effect;
      var before := actions[..|actions| - 1];
      RunKeepsAhead(before, events);
      RunKeepsInv(before, events);
      StepKeepsAhead(Run(INITIAL, before).value, actions[|actions| - 1], events);
    }
  }

  lemma ReachableIsAhead(s: Sys, events: set<Event>)
    requires SenderLaw(events) && Reachable(s, events)
    ensures MemoryAhead(s)
  {
    var actions :| DeliversFrom(actions, events) && Run(INITIAL, actions) == Some(s);
    RunKeepsAhead(actions, events);
  }

  /** One step of the file: an incident saved stays saved, at the same phase or a later one, until it is
      discarded. */
  lemma SavedPhaseStep(s: Sys, a: Action, m: Marker)
    requires AheadAt(s, m) && Enabled(s, a)
    ensures s.disk.dropped[m] <= Effect(s, a).disk.dropped[m]
    ensures m in s.disk.j.incidents && Effect(s, a).disk.dropped[m] == s.disk.dropped[m] ==>
              && m in Effect(s, a).disk.j.incidents
              && Rank(s.disk.j.incidents[m].phase) <= Rank(Effect(s, a).disk.j.incidents[m].phase)
  {
    hide Prunes, CoversTables, AfterDelivery, Discarding;
  }

  lemma AheadEverywhere(s: Sys, m: Marker)
    requires MemoryAhead(s)
    ensures AheadAt(s, m)
  {
  }

  lemma {:induction false} SavedPhases(s: Sys, events: set<Event>, actions: seq<Action>, m: Marker)
    requires SenderLaw(events) && SysInv(s, events) && MemoryAhead(s)
    requires DeliversFrom(actions, events) && Run(s, actions).Some? && m in s.disk.j.incidents
    ensures var t := Run(s, actions).value;
            && SysInv(t, events) && MemoryAhead(t)
            && s.disk.dropped[m] <= t.disk.dropped[m]
            && (t.disk.dropped[m] == s.disk.dropped[m] ==>
                  m in t.disk.j.incidents && Rank(s.disk.j.incidents[m].phase) <= Rank(t.disk.j.incidents[m].phase))
  {
    if actions != [] {
      hide SysInv, MemoryAhead, AheadAt, Enabled, Effect;
      var before, a := actions[..|actions| - 1], actions[|actions| - 1];
      SavedPhases(s, events, before, m);
      var t := Run(s, before).value;
      StepKeepsInv(t, a, events);
      StepKeepsAhead(t, a, events);
      assert AheadAt(t, m) by {
        AheadEverywhere(t, m);
      }
      SavedPhaseStep(t, a, m);
    }
  }

  /** Over any run, with whatever crashes, an incident on disk stays there and its phase never falls back
      along the lifecycle, until a save has discarded it; and so it is for an incident founded again under
      a marker discarded before, however often. */
  lemma PhasesMoveForward(s: Sys, events: set<Event>, actions: seq<Action>, m: Marker)
    requires SenderLaw(events) && Reachable(s, events) && DeliversFrom(actions, events) && Run(s, actions).Some?
    requires m in s.disk.j.incidents && Run(s, actions).value.disk.dropped[m] == s.disk.dropped[m]
    ensures var t := Run(s, actions).value;
            m in t.disk.j.incidents && Rank(s.disk.j.incidents[m].phase) <= Rank(t.disk.j.incidents[m].phase)
  {
    hide SysInv, MemoryAhead, Run;
    ReachableInv(s, events);
    ReachableIsAhead(s, events);
    SavedPhases(s, events, actions, m);
  }

  // ---- one open incident per group -------------------------------------------------------------

  /** The open table and the incidents not closed are in bijection by group. */
  lemma OneOpenIncidentPerGroup(s: Sys, events: set<Event>)
    requires SenderLaw(events) && Reachable(s, events)
    ensures forall g | g in s.mem.j.open :: OpenOk(s.mem.j, g)
    ensures forall m | m in s.mem.j.incidents && !s.mem.j.incidents[m].closed ::
              s.mem.j.incidents[m].group in s.mem.j.open && s.mem.j.open[s.mem.j.incidents[m].group] == m
  {
    ReachableBook(s, events);
    assert forall m | m in s.mem.j.incidents :: IncidentOk(s.mem.j, s.mem.delivered, m);
  }

  // ---- exact accounting ------------------------------------------------------------------------

  /** Marked events belong to a retained or a discarded incident; only discarded markers stain. */
  ghost predicate MarksAccounted(b: Book) {
    && (forall id | id in b.j.events && b.j.events[id].marker.Some? ::
          b.j.events[id].marker.value in b.j.incidents || b.j.events[id].marker.value in b.dropped)
    && (forall m | m in b.stained :: m in b.dropped)
  }

  lemma DeliveryAccounts(b: Book, d: Delivery, env: Env)
    requires BookInv(b) && SenderLaw(b.delivered + {d.event}) && CoversTables(env, b.j, d.event) && MarksAccounted(b)
    ensures MarksAccounted(AfterDelivery(b, d, env))
  {
    DeliveryLives(b, d, env);
    hide BookInv, Process;
  }

  lemma {:induction false} RunAccounts(actions: seq<Action>, events: set<Event>)
    requires SenderLaw(events) && DeliversFrom(actions, events) && Run(INITIAL, actions).Some?
    ensures MarksAccounted(Run(INITIAL, actions).value.mem) && MarksAccounted(Run(INITIAL, actions).value.disk)
  {
    if actions != [] {
      hide SysInv, MarksAccounted;
      var before := actions[..|actions| - 1];
      RunAccounts(before, events);
      RunKeepsInv(before, events);
      StepAccounts(Run(INITIAL, before).value, actions[|actions| - 1], events);
    }
  }

  lemma StepAccounts(s: Sys, a: Action, events: set<Event>)
    requires SysInv(s, events) && Enabled(s, a) && SenderLaw(events) && (a.Deliver? ==> a.delivery.event in events)
    requires MarksAccounted(s.mem) && MarksAccounted(s.disk)
    ensures MarksAccounted(Effect(s, a).mem) && MarksAccounted(Effect(s, a).disk)
  {
    hide BookInv, CreateInv;
    if a.Deliver? {
      hide MarksAccounted, AfterDelivery;
      assert s.mem.delivered + {a.delivery.event} <= events;
      DeliveryAccounts(s.mem, a.delivery, a.env);
    }
  }

  /** An open incident counts exactly the distinct stored events that carry its marker, through
      duplicates, reassociation and pruning, if and only if its marker is not stained: if no event of an
      earlier incident of the same marker was still stored when it was founded.  Its episodes and its
      last date are then those of exactly these events.  Only a discarded incident leaves a stain. */
  lemma OpenIncidentsAreExact(s: Sys, events: set<Event>, m: Marker)
    requires SenderLaw(events) && Reachable(s, events)
    requires m in s.mem.j.incidents && !s.mem.j.incidents[m].closed
    ensures s.mem.j.incidents[m].eventCount == |Payloads(s.mem.j, m)| <==> m !in s.mem.stained
    ensures m !in s.mem.stained ==> Exact(s.mem.j.incidents[m], Payloads(s.mem.j, m))
    ensures m !in s.mem.dropped ==> m !in s.mem.stained
  {
    ReachableBook(s, events);
    var actions :| DeliversFrom(actions, events) && Run(INITIAL, actions) == Some(s);
    RunAccounts(actions, events);
    assert ExactAt(s.mem, m);
  }

  /** An open incident whose count is not that of the distinct stored events carrying its marker. */
  ghost predicate MiscountsAt(b: Book, m: Marker) {
    m in b.j.incidents && !b.j.incidents[m].closed && b.j.incidents[m].eventCount != |Payloads(b.j, m)|
  }

  // ---- convergence -----------------------------------------------------------------------------

  function GroupEvents(delivered: set<Event>, g: string): set<Event> {
    set e | e in delivered && e.group == g
  }

  /** The events that end up in the group's incident: those whose episode had a failure or escalation. */
  ghost function Heard(delivered: set<Event>, g: string): set<Event> {
    set e | e in GroupEvents(delivered, g) && HasFault(GroupEvents(delivered, g), e.episodeId)
  }

  /** No delivered event of the group is of an episode that some incident listed when it was closed. */
  ghost predicate Untouched(b: Book, g: string) {
    forall e | e in b.delivered && e.group == g :: e.episodeId !in b.settled
  }

  lemma DeliveredIsStored(b: Book, e: Event)
    requires BookInv(b) && e in b.delivered && e.episodeId !in b.settled
    ensures e.eventId in b.j.events && b.j.events[e.eventId].payload == e && EventOk(b.j, b.delivered, e.eventId)
    ensures MarkedOpen(b.j, b.j.events[e.eventId]) && Unmatched(b.j, b.j.events[e.eventId])
  {
    assert Kept(b, e.episodeId);
    assert EventOk(b.j, b.delivered, e.eventId);
    assert Coherent(b.j.events[e.eventId].payload, e);
  }

  /** Until its episode is settled, a delivered event is stored; the open incident of its group carries it
      if a fault of the episode was delivered, and otherwise it is kept unmatched. */
  lemma CarriedOrUnmatched(b: Book, e: Event)
    requires BookInv(b) && e in b.delivered && e.episodeId !in b.settled
    ensures e.eventId in b.j.events && b.j.events[e.eventId].payload == e
    ensures if HasFault(b.delivered, e.episodeId)
            then e.group in b.j.open && b.j.events[e.eventId].marker == Some(b.j.open[e.group])
            else b.j.events[e.eventId].marker.None?
  {
    DeliveredIsStored(b, e);
    var r := b.j.events[e.eventId];
    if HasFault(b.delivered, e.episodeId) {
      var f :| f in b.delivered && f.episodeId == e.episodeId && f.kind != Recovery;
      assert Coherent(e, f);
      DeliveredIsStored(b, f);
    }
    if r.marker.Some? {
      ListedHadFault(b, r.marker.value, e.episodeId);
    }
  }

  lemma ListedHadFault(b: Book, m: Marker, k: nat)
    requires BookInv(b) && m in b.j.incidents && k in b.j.incidents[m].episodes
    ensures HasFault(b.delivered, k)
  {
    assert Sourced(b.j.incidents[m], b.delivered);
    var f :| Sources(f, b.j.incidents[m].episodes[k], b.delivered, k);
  }

  /** A fault of an episode shows among its group's events. */
  lemma FaultOfGroup(b: Book, e: Event)
    requires SenderLaw(b.delivered) && e in b.delivered
    ensures HasFault(b.delivered, e.episodeId) <==> HasFault(GroupEvents(b.delivered, e.group), e.episodeId)
  {
    if HasFault(b.delivered, e.episodeId) {
      var f :| f in b.delivered && f.episodeId == e.episodeId && f.kind != Recovery;
      assert Coherent(e, f);
      assert f in GroupEvents(b.delivered, e.group);
    }
  }

  lemma HeardIsCarried(b: Book, g: string, e: Event)
    requires BookInv(b) && Untouched(b, g) && g in b.j.open && e in Heard(b.delivered, g)
    ensures e in Payloads(b.j, b.j.open[g])
  {
    BookParts(b);
    hide BookInv, Structural;
    FaultOfGroup(b, e);
    CarriedOrUnmatched(b, e);
  }

  /** The open incident of an untouched group is exact. */
  lemma OpenIsExact(b: Book, g: string)
    requires BookInv(b) && Untouched(b, g) && g in b.j.open
    ensures OpenOk(b.j, g) && b.j.open[g].group == g
    ensures Exact(b.j.incidents[b.j.open[g]], Payloads(b.j, b.j.open[g]))
  {
    assert OpenOk(b.j, g);
    assert IncidentOk(b.j, b.delivered, b.j.open[g]);
    assert b.j.open[g] in b.stained ==> StainSettled(b, b.j.open[g]);
    assert ExactAt(b, b.j.open[g]);
  }

  lemma PayloadIsOfGroup(j: Journal, delivered: set<Event>, m: Marker, e: Event)
    requires Structural(j, delivered) && e in Payloads(j, m)
    ensures e in GroupEvents(delivered, m.group)
  {
    PayloadIsStored(j, delivered, m, e);
    assert EventOk(j, delivered, e.eventId);
  }

  lemma CarriedIsHeard(b: Book, g: string, e: Event)
    requires BookInv(b) && Untouched(b, g) && g in b.j.open && e in Payloads(b.j, b.j.open[g])
    ensures e in Heard(b.delivered, g)
  {
    BookParts(b);
    OpenIsExact(b, g);
    hide BookInv, Payloads, Structural;
    var m := b.j.open[g];
    var eps, s := b.j.incidents[m].episodes, Payloads(b.j, m);
    PayloadIsOfGroup(b.j, b.delivered, m, e);
    assert Shown(eps, e);
    assert TellsEpisode(eps[e.episodeId], s, e.episodeId);
    var f :| f in s && f.episodeId == e.episodeId && f.kind != Recovery;
    PayloadIsOfGroup(b.j, b.delivered, m, f);
  }

  /** While its group is untouched, the open incident carries exactly the events heard. */
  lemma OpenIncidentHearsAll(b: Book, g: string)
    requires BookInv(b) && Untouched(b, g)
    ensures g in b.j.open ==> OpenOk(b.j, g) && Exact(b.j.incidents[b.j.open[g]], Heard(b.delivered, g))
    ensures g in b.j.open ==> Payloads(b.j, b.j.open[g]) == Heard(b.delivered, g) != {}
    ensures g !in b.j.open ==> Heard(b.delivered, g) == {}
  {
    hide BookInv, Exact, Payloads;
    if g in b.j.open {
      forall e
        ensures e in Payloads(b.j, b.j.open[g]) <==> e in Heard(b.delivered, g)
      {
        if e in Heard(b.delivered, g) {
          HeardIsCarried(b, g, e);
        }
        if e in Payloads(b.j, b.j.open[g]) {
          CarriedIsHeard(b, g, e);
        }
      }
      assert Payloads(b.j, b.j.open[g]) == Heard(b.delivered, g);
      OpenIsExact(b, g);
      FounderIsHeard(b, g);
    } else {
      NothingHeardBeforeOpening(b, g);
    }
  }

  /** An open incident lists its founder's episode, so it carries at least one event. */
  lemma FounderIsHeard(b: Book, g: string)
    requires BookInv(b) && Untouched(b, g) && g in b.j.open
    ensures Payloads(b.j, b.j.open[g]) != {}
  {
    var m := b.j.open[g];
    OpenIsExact(b, g);
    assert IncidentOk(b.j, b.delivered, m);
    var e :| e in b.delivered && e.eventId == m.eventId && e.group == m.group
        && e.episodeId in b.j.incidents[m].episodes;
    assert TellsEpisode(b.j.incidents[m].episodes[e.episodeId], Payloads(b.j, m), e.episodeId);
  }

  lemma DatedIsUnique(a: Option<int>, b: Option<int>, s: set<Event>)
    requires Dated(a, s) && Dated(b, s)
    ensures a == b
  {
  }

  lemma ExactAgrees(a: Incident, b: Incident, s: set<Event>)
    requires Exact(a, s) && Exact(b, s)
    ensures a.episodes == b.episodes && a.eventCount == b.eventCount && a.lastEventAt == b.lastEventAt
  {
    TellsIsUnique(a.episodes, b.episodes, s);
    DatedIsUnique(a.lastEventAt, b.lastEventAt, s);
  }

  lemma BooksAgree(b: Book, c: Book, g: string)
    requires BookInv(b) && BookInv(c) && Untouched(b, g) && Untouched(c, g)
    requires GroupEvents(b.delivered, g) == GroupEvents(c.delivered, g)
    ensures g in b.j.open <==> g in c.j.open
    ensures g in b.j.open ==>
              OpenOk(b.j, g) && OpenOk(c.j, g) &&
              var x, y := b.j.incidents[b.j.open[g]], c.j.incidents[c.j.open[g]];
              x.episodes == y.episodes && x.eventCount == y.eventCount && x.lastEventAt == y.lastEventAt
  {
    OpenIncidentHearsAll(b, g);
    OpenIncidentHearsAll(c, g);
    assert Heard(b.delivered, g) == Heard(c.delivered, g);
    hide BookInv, Exact;
    if g in b.j.open {
      ExactAgrees(b.j.incidents[b.j.open[g]], c.j.incidents[c.j.open[g]], Heard(b.delivered, g));
    }
  }

  lemma NothingHeardBeforeOpening(b: Book, g: string)
    requires BookInv(b) && Untouched(b, g) && g !in b.j.open
    ensures Heard(b.delivered, g) == {}
  {
    BookParts(b);
    hide BookInv, Structural;
    forall e | e in Heard(b.delivered, g)
      ensures false
    {
      FaultOfGroup(b, e);
      CarriedOrUnmatched(b, e);
    }
  }

  /** Convergence: two runs that delivered the same events of a group, in any orders and with any
      duplicates, crashes and saves, agree on the group's episodes, count and last date, as long as
      neither closed an incident that listed one of them. */
  lemma DeliveryOrderIsForgotten(s: Sys, t: Sys, events: set<Event>, g: string)
    requires SenderLaw(events) && Reachable(s, events) && Reachable(t, events)
    requires Untouched(s.mem, g) && Untouched(t.mem, g)
    requires GroupEvents(s.mem.delivered, g) == GroupEvents(t.mem.delivered, g)
    ensures g in s.mem.j.open <==> g in t.mem.j.open
    ensures g in s.mem.j.open ==>
              OpenOk(s.mem.j, g) && OpenOk(t.mem.j, g) &&
              var a, b := s.mem.j.incidents[s.mem.j.open[g]], t.mem.j.incidents[t.mem.j.open[g]];
              a.episodes == b.episodes && a.eventCount == b.eventCount && a.lastEventAt == b.lastEventAt
  {
    ReachableBook(s, events);
    ReachableBook(t, events);
    BooksAgree(s.mem, t.mem, g);
  }

  /** Any two open incidents, of one run or of two and in whatever groups' histories, agree once they carry
      the same stored events, unless the marker of one was founded over stored events. */
  lemma SameEventsSameIncident(s: Sys, t: Sys, events: set<Event>, m: Marker, n: Marker)
    requires SenderLaw(events) && Reachable(s, events) && Reachable(t, events)
    requires m in s.mem.j.incidents && !s.mem.j.incidents[m].closed && m !in s.mem.stained
    requires n in t.mem.j.incidents && !t.mem.j.incidents[n].closed && n !in t.mem.stained
    requires Payloads(s.mem.j, m) == Payloads(t.mem.j, n)
    ensures var a, b := s.mem.j.incidents[m], t.mem.j.incidents[n];
            a.episodes == b.episodes && a.eventCount == b.eventCount && a.lastEventAt == b.lastEventAt
  {
    hide Exact, Reachable;
    OpenIncidentsAreExact(s, events, m);
    OpenIncidentsAreExact(t, events, n);
    ExactAgrees(s.mem.j.incidents[m], t.mem.j.incidents[n], Payloads(s.mem.j, m));
  }

  /** In any group, closed before or not, an open incident lists exactly the episodes of which it carries a
      failure or escalation, recovered exactly when it carries the recovery, each with the largest sequence
      it carries, unless its marker was founded over stored events. */
  lemma EpisodesTellStored(s: Sys, events: set<Event>, m: Marker, k: nat)
    requires SenderLaw(events) && Reachable(s, events)
    requires m in s.mem.j.incidents && !s.mem.j.incidents[m].closed && m !in s.mem.stained
    ensures var eps, all := s.mem.j.incidents[m].episodes, Payloads(s.mem.j, m);
            && (k in eps <==> HasFault(all, k))
            && (k in eps ==>
                  && (eps[k].recovered <==> HasRecovery(all, k))
                  && HasSequence(all, k, eps[k].lastSequence)
                  && forall e | e in all && e.episodeId == k :: e.sequence <= eps[k].lastSequence)
  {
    hide Reachable, Payloads;
    OpenIncidentsAreExact(s, events, m);
    ToldEpisode(s.mem.j.incidents[m].episodes, Payloads(s.mem.j, m), k);
  }

  lemma ToldEpisode(eps: map<nat, Episode>, s: set<Event>, k: nat)
    requires Tells(eps, s)
    ensures k in eps <==> HasFault(s, k)
    ensures k in eps ==>
              && (eps[k].recovered <==> HasRecovery(s, k)) && HasSequence(s, k, eps[k].lastSequence)
              && forall e | e in s && e.episodeId == k :: e.sequence <= eps[k].lastSequence
  {
    if k in eps {
      assert TellsEpisode(eps[k], s, k);
    }
    forall e | e in s && e.episodeId == k
      ensures k in eps && e.sequence <= eps[k].lastSequence
    {
      assert Shown(eps, e);
    }
  }

  // ---- episode by episode, also after a group was closed ------------------------------------------

  /** The entry of an episode not settled tells exactly what was delivered of it. */
  lemma OpenTellsEpisode(b: Book, g: string, k: nat)
    requires BookInv(b) && k !in b.settled && g in b.j.open
    ensures OpenOk(b.j, g)
    ensures var eps, all := b.j.incidents[b.j.open[g]].episodes, GroupEvents(b.delivered, g);
            && (k in eps <==> HasFault(all, k))
            && (k in eps ==>
                  && (eps[k].recovered <==> HasRecovery(all, k)) && HasSequence(all, k, eps[k].lastSequence)
                  && forall e | e in all && e.episodeId == k ::
                       e.sequence <= eps[k].lastSequence && SameSignal(eps[k], e))
  {
    OpenTellsApart(b, g);
    BookParts(b);
    hide BookInv, Structural, TellsBut, Payloads;
    var m, all := b.j.open[g], GroupEvents(b.delivered, g);
    var eps, s := b.j.incidents[m].episodes, Payloads(b.j, m);
    TellsApart(eps, s, b.settled, k);
    forall e | e in s
      ensures e in all
    {
      PayloadIsOfGroup(b.j, b.delivered, m, e);
    }
    if HasFault(all, k) {
      forall e | e in all && e.episodeId == k
        ensures e in s
      {
        FaultOfGroup(b, e);
        CarriedOrUnmatched(b, e);
        MarkedIsPayload(b.j, e.eventId);
      }
    }
  }

  /** An open incident, stained or not, tells what it carries of episodes not settled. */
  lemma OpenTellsApart(b: Book, g: string)
    requires BookInv(b) && g in b.j.open
    ensures OpenOk(b.j, g) && b.j.open[g].group == g
    ensures TellsBut(b.j.incidents[b.j.open[g]].episodes, Payloads(b.j, b.j.open[g]), b.settled)
  {
    var m := b.j.open[g];
    assert OpenOk(b.j, g);
    assert IncidentOk(b.j, b.delivered, m);
    assert ExactAt(b, m);
    hide Tells, Payloads;
    if m !in b.stained {
      TellsAll(b.j.incidents[m].episodes, Payloads(b.j, m), b.settled);
    }
  }

  /** In any group, whatever incidents of it were closed before: an episode that none of them listed is
      listed by the open incident exactly when a failure or escalation of it was delivered; it is
      recovered exactly when its recovery was; and its last sequence is the largest delivered. */
  lemma EpisodesTellDeliveries(s: Sys, events: set<Event>, g: string, k: nat)
    requires SenderLaw(events) && Reachable(s, events) && k !in s.mem.settled && g in s.mem.j.open
    ensures OpenOk(s.mem.j, g)
    ensures var eps, all := s.mem.j.incidents[s.mem.j.open[g]].episodes, GroupEvents(s.mem.delivered, g);
            && (k in eps <==> HasFault(all, k))
            && (k in eps ==>
                  && (eps[k].recovered <==> HasRecovery(all, k))
                  && HasSequence(all, k, eps[k].lastSequence)
                  && forall e | e in all && e.episodeId == k :: e.sequence <= eps[k].lastSequence)
  {
    ReachableBook(s, events);
    OpenTellsEpisode(s.mem, g, k);
  }

  /** Whatever was delivered of an episode that no closed incident listed is carried by the incident now open
      in its group, from the first failure or escalation of the episode on, and kept unmatched before. */
  lemma LaterIncidentCarries(s: Sys, events: set<Event>, e: Event)
    requires SenderLaw(events) && Reachable(s, events)
    requires e in s.mem.delivered && e.episodeId !in s.mem.settled
    ensures e.eventId in s.mem.j.events && s.mem.j.events[e.eventId].payload == e
    ensures HasFault(s.mem.delivered, e.episodeId) <==>
              e.group in s.mem.j.open && e in Payloads(s.mem.j, s.mem.j.open[e.group])
    ensures HasFault(s.mem.delivered, e.episodeId) <==> s.mem.j.events[e.eventId].marker.Some?
  {
    ReachableBook(s, events);
    BookParts(s.mem);
    hide BookInv, Structural, Payloads;
    CarriedOrUnmatched(s.mem, e);
    if s.mem.j.events[e.eventId].marker.Some? {
      MarkedIsPayload(s.mem.j, e.eventId);
    } else if e.group in s.mem.j.open {
      NewPayload(s.mem.j, s.mem.delivered, s.mem.j.open[e.group], e);
    }
  }

  /** The recoveries kept as unmatched are exactly those whose episode had no fault delivered. */
  lemma UnmatchedRecoveriesAreThose(s: Sys, events: set<Event>, e: Event)
    requires SenderLaw(events) && Reachable(s, events)
    requires e in s.mem.delivered && e.episodeId !in s.mem.settled
    ensures e.eventId in s.mem.j.events && s.mem.j.events[e.eventId].payload == e
    ensures s.mem.j.events[e.eventId].marker.None? <==> !HasFault(GroupEvents(s.mem.delivered, e.group), e.episodeId)
  {
    ReachableBook(s, events);
    BookParts(s.mem);
    hide BookInv, Structural;
    CarriedOrUnmatched(s.mem, e);
    FaultOfGroup(s.mem, e);
  }

  function EpisodeEvents(s: set<Event>, k: nat): set<Event> {
    set e | e in s && e.episodeId == k
  }

  /** Convergence of one episode, whatever else happened to its group: two runs that delivered the same events
      of it, in any orders and with any duplicates, crashes, saves and closings of incidents that did not
      list it, carry the same of them and show the same entry for it. */
  lemma EpisodeOrderIsForgotten(s: Sys, t: Sys, events: set<Event>, g: string, k: nat)
    requires SenderLaw(events) && Reachable(s, events) && Reachable(t, events)
    requires k !in s.mem.settled && k !in t.mem.settled && g in s.mem.j.open && g in t.mem.j.open
    requires EpisodeEvents(GroupEvents(s.mem.delivered, g), k) == EpisodeEvents(GroupEvents(t.mem.delivered, g), k)
    ensures OpenOk(s.mem.j, g) && OpenOk(t.mem.j, g)
    ensures EpisodeEvents(Payloads(s.mem.j, s.mem.j.open[g]), k) == EpisodeEvents(Payloads(t.mem.j, t.mem.j.open[g]), k)
    ensures var a, b := s.mem.j.incidents[s.mem.j.open[g]].episodes, t.mem.j.incidents[t.mem.j.open[g]].episodes;
            (k in a <==> k in b) && (k in a ==> a[k] == b[k])
  {
    ReachableBook(s, events);
    ReachableBook(t, events);
    hide BookInv, Payloads, Reachable, GroupEvents, EpisodeEvents, HasFault, HasRecovery, HasSequence;
    OpenTellsEpisode(s.mem, g, k);
    OpenTellsEpisode(t.mem, g, k);
    CarriesOfEpisode(s.mem, g, k);
    CarriesOfEpisode(t.mem, g, k);
    var all, more := GroupEvents(s.mem.delivered, g), GroupEvents(t.mem.delivered, g);
    SameFaults(all, more, k);
    var a, b := s.mem.j.incidents[s.mem.j.open[g]].episodes, t.mem.j.incidents[t.mem.j.open[g]].episodes;
    if k in a {
      SameEntry(a[k], b[k], all, more, k);
    }
  }

  lemma SameFaults(s: set<Event>, t: set<Event>, k: nat)
    requires EpisodeEvents(s, k) == EpisodeEvents(t, k)
    ensures HasFault(s, k) <==> HasFault(t, k)
  {
    assert forall e: Event | e.episodeId == k :: e in s <==> e in EpisodeEvents(s, k);
    assert forall e: Event | e.episodeId == k :: e in t <==> e in EpisodeEvents(t, k);
  }

  /** The same events of an episode leave the same entry. */
  lemma SameEntry(a: Episode, b: Episode, s: set<Event>, t: set<Event>, k: nat)
    requires EpisodeEvents(s, k) == EpisodeEvents(t, k)
    requires (a.recovered <==> HasRecovery(s, k)) && HasSequence(s, k, a.lastSequence)
    requires (b.recovered <==> HasRecovery(t, k)) && HasSequence(t, k, b.lastSequence)
    requires forall e | e in s && e.episodeId == k :: e.sequence <= a.lastSequence && SameSignal(a, e)
    requires forall e | e in t && e.episodeId == k :: e.sequence <= b.lastSequence && SameSignal(b, e)
    ensures a == b
  {
    assert forall e: Event | e.episodeId == k :: e in s <==> e in EpisodeEvents(s, k);
    assert forall e: Event | e.episodeId == k :: e in t <==> e in EpisodeEvents(t, k);
    var x :| x in s && x.episodeId == k && x.sequence == a.lastSequence;
    var y :| y in t && y.episodeId == k && y.sequence == b.lastSequence;
    assert x in t && y in s;
  }

  /** What an open incident carries of an episode not settled. */
  lemma CarriesOfEpisode(b: Book, g: string, k: nat)
    requires BookInv(b) && k !in b.settled && g in b.j.open
    ensures var all := GroupEvents(b.delivered, g);
            EpisodeEvents(Payloads(b.j, b.j.open[g]), k) == if HasFault(all, k) then EpisodeEvents(all, k) else {}
  {
    OpenTellsApart(b, g);
    BookParts(b);
    hide BookInv, Structural, TellsBut, Payloads;
    var m, all := b.j.open[g], GroupEvents(b.delivered, g);
    forall e: Event | e.episodeId == k
      ensures e in Payloads(b.j, m) <==> e in all && HasFault(all, k)
    {
      if e in Payloads(b.j, m) {
        PayloadIsOfGroup(b.j, b.delivered, m, e);
        PayloadIsStored(b.j, b.delivered, m, e);
      }
      if e in all {
        FaultOfGroup(b, e);
        CarriedOrUnmatched(b, e);
        if HasFault(all, k) {
          MarkedIsPayload(b.j, e.eventId);
        }
      }
    }
  }
}
