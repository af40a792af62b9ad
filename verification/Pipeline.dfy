/** Both machines together: several hosts send, one reconciler receives. */
module Pipeline {
  import opened HealthEvents
  import opened AlertLedger
  import AlertQueue
  import AlertRuns
  import opened AlertEpisodes
  import opened IncidentEpisodes
  import opened IncidentInvariant
  import IncidentRuns
  import opened IncidentTheorems

  /** Hosts by their source name. */
  type Fleet = map<string, AlertRuns.Sys>

  /** Each host runs its own program; no UUID is drawn twice. */
  ghost predicate Deployed(fleet: Fleet) {
    && (forall h | h in fleet :: AlertRuns.Reachable(h, fleet[h]))
    && (forall h, i, e, f | h in fleet && i in fleet && h != i && e in fleet[h].sent && f in fleet[i].sent ::
          e.eventId != f.eventId && e.episodeId != f.episodeId)
  }

  function SentByAll(fleet: Fleet): set<Event> {
    set h, e | h in fleet && e in fleet[h].sent :: e
  }

  /** Whatever all hosts sent obeys the law the reconciler relies on. */
  lemma {:induction false} FleetIsLawful(fleet: Fleet)
    requires Deployed(fleet)
    ensures SenderLaw(SentByAll(fleet))
    decreases |fleet|
  {
    hide SenderLaw, Deployed, SentByAll;
    if h :| h in fleet {
      var others := fleet - {h};
      OneHostMore(fleet, h);
      FleetIsLawful(others);
      LawOfUnion(SentByAll(others), AlertRuns.SentSet(fleet[h]));
    } else {
      NobodyIsLawful(fleet);
    }
  }

  lemma OneHostMore(fleet: Fleet, h: string)
    requires Deployed(fleet) && h in fleet
    ensures Deployed(fleet - {h}) && |fleet - {h}| < |fleet| && SenderLaw(AlertRuns.SentSet(fleet[h]))
    ensures SentByAll(fleet) == SentByAll(fleet - {h}) + AlertRuns.SentSet(fleet[h])
    ensures forall e, f | e in SentByAll(fleet - {h}) && f in AlertRuns.SentSet(fleet[h]) ::
              e.eventId != f.eventId && e.episodeId != f.episodeId
  {
    hide SenderLaw, AlertRuns.Reachable;
    AlertRuns.SentEventsAreLawful(h, fleet[h]);
    assert (fleet - {h}).Keys == fleet.Keys - {h};
    SentSplits(fleet, h);
  }

  lemma SentSplits(fleet: Fleet, h: string)
    requires h in fleet
    ensures SentByAll(fleet) == SentByAll(fleet - {h}) + AlertRuns.SentSet(fleet[h])
  {
    forall e
      ensures e in SentByAll(fleet) <==> e in SentByAll(fleet - {h}) || e in fleet[h].sent
    {
      if e in SentByAll(fleet) {
        var i :| i in fleet && e in fleet[i].sent;
        assert i != h ==> i in fleet - {h} && (fleet - {h})[i] == fleet[i];
      }
    }
  }

  lemma NobodyIsLawful(fleet: Fleet)
    requires forall h :: h !in fleet
    ensures SenderLaw(SentByAll(fleet))
  {
  }

  /** End to end: a reconciler that was delivered the same events of a group, in another order, with
      duplicates, and with crashes on either side, reaches the same episodes, count and last date. */
  lemma OrderIsForgottenEndToEnd(fleet: Fleet, s: IncidentRuns.Sys, t: IncidentRuns.Sys, g: string)
    requires Deployed(fleet) && Reachable(s, SentByAll(fleet)) && Reachable(t, SentByAll(fleet))
    requires Untouched(s.mem, g) && Untouched(t.mem, g)
    requires GroupEvents(s.mem.delivered, g) == GroupEvents(t.mem.delivered, g)
    ensures g in s.mem.j.open <==> g in t.mem.j.open
    ensures g in s.mem.j.open ==>
              OpenOk(s.mem.j, g) && OpenOk(t.mem.j, g) &&
              var a, b := s.mem.j.incidents[s.mem.j.open[g]], t.mem.j.incidents[t.mem.j.open[g]];
              a.episodes == b.episodes && a.eventCount == b.eventCount && a.lastEventAt == b.lastEventAt
  {
    FleetIsLawful(fleet);
    DeliveryOrderIsForgotten(s, t, SentByAll(fleet), g);
  }

  /** End to end for one episode, also in a group whose earlier incidents were closed. */
  lemma EpisodeOrderIsForgottenEndToEnd(fleet: Fleet, s: IncidentRuns.Sys, t: IncidentRuns.Sys, g: string, k: nat)
    requires Deployed(fleet) && Reachable(s, SentByAll(fleet)) && Reachable(t, SentByAll(fleet))
    requires k !in s.mem.settled && k !in t.mem.settled && g in s.mem.j.open && g in t.mem.j.open
    requires EpisodeEvents(GroupEvents(s.mem.delivered, g), k) == EpisodeEvents(GroupEvents(t.mem.delivered, g), k)
    ensures OpenOk(s.mem.j, g) && OpenOk(t.mem.j, g)
    ensures var a, b := s.mem.j.incidents[s.mem.j.open[g]].episodes, t.mem.j.incidents[t.mem.j.open[g]].episodes;
            (k in a <==> k in b) && (k in a ==> a[k] == b[k])
  {
    hide Deployed, Reachable, EpisodeEvents, GroupEvents;
    FleetIsLawful(fleet);
    EpisodeOrderIsForgotten(s, t, SentByAll(fleet), g, k);
  }

  // ---- what the incident says about the hosts --------------------------------------------------

  function Saved(fleet: Fleet, h: string): seq<Event>
    requires h in fleet
  {
    AlertQueue.Issued(fleet[h].disk.calls)
  }

  /** Every event of the group that a host saved was delivered, and none was dropped. */
  ghost predicate CaughtUp(fleet: Fleet, delivered: set<Event>, g: string) {
    && (forall h | h in fleet :: fleet[h].disk.st.counters.dropped == 0)
    && (forall h: string, e: Event | h in fleet && e in Saved(fleet, h) && e.group == g :: e in delivered)
  }

  /** Some signal of the group is failing on some host, with this episode. */
  ghost predicate FailingSomewhere(fleet: Fleet, g: string, p: nat) {
    exists h, k: Key :: h in fleet && k.group == g && FailingAs(fleet[h].disk.st, k, p)
  }

  lemma SavedIsOwn(fleet: Fleet, h: string, e: Event)
    requires Deployed(fleet) && h in fleet && e in Saved(fleet, h)
    ensures e.source == h
  {
    AlertRuns.ReachableInv(h, fleet[h]);
    AlertRuns.DurableEventsAreLawful(h, fleet[h]);
    assert AlertRuns.Own(e, h, fleet[h].uuids);
  }

  /** A delivered event was saved by the host it names. */
  lemma DeliveredWasSaved(fleet: Fleet, e: Event)
    requires Deployed(fleet) && e in SentByAll(fleet)
    ensures e.source in fleet && e in Saved(fleet, e.source)
  {
    var h :| h in fleet && e in fleet[h].sent;
    AlertRuns.ReachableInv(h, fleet[h]);
    AlertRuns.DurableEventsAreLawful(h, fleet[h]);
    SavedIsOwn(fleet, h, e);
  }

  lemma FailureIsSeen(fleet: Fleet, delivered: set<Event>, g: string, p: nat)
    requires Deployed(fleet) && delivered <= SentByAll(fleet) && CaughtUp(fleet, delivered, g)
    requires FailingSomewhere(fleet, g, p)
    ensures HasFault(GroupEvents(delivered, g), p) && !HasRecovery(GroupEvents(delivered, g), p)
  {
    hide Deployed, SenderLaw, AlertRuns.Reachable, FailingAs;
    var h, k: Key :| h in fleet && k.group == g && FailingAs(fleet[h].disk.st, k, p);
    HostsRun(fleet, h);
    EventsTellSignals(h, fleet[h], k, p);
    var e :| e in Saved(fleet, h) && e.episodeId == p && e.kind != Recovery && e.group == k.group
        && e.signal == k.signal;
    assert e in GroupEvents(delivered, g);
    SavedIsOwn(fleet, h, e);
    forall r | r in GroupEvents(delivered, g) && r.episodeId == p
      ensures r.kind != Recovery
    {
      DeliveredWasSaved(fleet, r);
      LikeSource(fleet, r, e, h);
    }
  }

  lemma HostsRun(fleet: Fleet, h: string)
    requires Deployed(fleet) && h in fleet
    ensures AlertRuns.Reachable(h, fleet[h])
  {
  }

  /** Events of one episode come from one host. */
  lemma LikeSource(fleet: Fleet, r: Event, e: Event, h: string)
    requires Deployed(fleet) && r in SentByAll(fleet) && e in SentByAll(fleet) && r.episodeId == e.episodeId
    requires e.source == h
    ensures r.source == h
  {
    hide Deployed, AlertRuns.Reachable;
    FleetIsLawful(fleet);
    assert Coherent(r, e);
  }

  lemma SeenIsFailure(fleet: Fleet, delivered: set<Event>, g: string, p: nat)
    requires Deployed(fleet) && delivered <= SentByAll(fleet) && CaughtUp(fleet, delivered, g)
    requires HasFault(GroupEvents(delivered, g), p) && !HasRecovery(GroupEvents(delivered, g), p)
    ensures FailingSomewhere(fleet, g, p)
  {
    var e :| e in GroupEvents(delivered, g) && e.episodeId == p && e.kind != Recovery;
    DeliveredWasSaved(fleet, e);
    var h := e.source;
    AlertRuns.ReachableInv(h, fleet[h]);
    AlertRuns.DurableEventsAreLawful(h, fleet[h]);
    forall r | r in Saved(fleet, h) && r.episodeId == p
      ensures r.kind != Recovery
    {
      assert Coherent(r, e);
      assert r.group == g ==> r in GroupEvents(delivered, g);
    }
    EventsTellSignals(h, fleet[h], Key(e.group, e.signal), p);
  }

  /** A fault of an episode not settled keeps an incident of its group open. */
  lemma FaultIsOpen(b: Book, g: string, p: nat)
    requires BookInv(b) && p !in b.settled && HasFault(GroupEvents(b.delivered, g), p)
    ensures g in b.j.open
  {
    var e :| e in GroupEvents(b.delivered, g) && e.episodeId == p && e.kind != Recovery;
    CarriedOrUnmatched(b, e);
  }

  /** Once a reconciler has caught up with a group, its open incident shows as failing exactly the current
      episodes of the signals that are failing on the hosts, among those that no incident listed when
      maintenance closed it. */
  lemma StatusIsFaithful(fleet: Fleet, t: IncidentRuns.Sys, g: string, p: nat)
    requires Deployed(fleet) && Reachable(t, SentByAll(fleet)) && CaughtUp(fleet, t.mem.delivered, g)
    requires p !in t.mem.settled
    ensures g in t.mem.j.open ==> OpenOk(t.mem.j, g)
    ensures FailingSomewhere(fleet, g, p) <==>
              g in t.mem.j.open &&
              var eps := t.mem.j.incidents[t.mem.j.open[g]].episodes; p in eps && !eps[p].recovered
  {
    hide Deployed, SenderLaw, Reachable, CaughtUp, FailingSomewhere, IncidentRuns.CreateInv, BookInv;
    FleetIsLawful(fleet);
    ReachableInv(t, SentByAll(fleet));
    OpenIsOpen(t.mem, g);
    var all := GroupEvents(t.mem.delivered, g);
    if FailingSomewhere(fleet, g, p) {
      FailureIsSeen(fleet, t.mem.delivered, g, p);
    } else if HasFault(all, p) && !HasRecovery(all, p) {
      SeenIsFailure(fleet, t.mem.delivered, g, p);
    }
    if g in t.mem.j.open {
      OpenTellsEpisode(t.mem, g, p);
    } else if HasFault(all, p) {
      FaultIsOpen(t.mem, g, p);
    }
  }

  lemma OpenIsOpen(b: Book, g: string)
    requires BookInv(b)
    ensures g in b.j.open ==> OpenOk(b.j, g)
  {
  }
}
