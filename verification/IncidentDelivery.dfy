/** `process`, branch by branch, against the invariant of the journal. */
module IncidentDelivery {
  import opened HealthEvents
  import opened IncidentJournal
  import opened IncidentEpisodes
  import opened IncidentInvariant

  /** The iteration orders cover the tables they iterate, the event being delivered included. */
  ghost predicate CoversTables(env: Env, j: Journal, e: Event) {
    && (forall m | m in j.incidents :: m in env.markers)
    && (forall id | id in j.events :: id in env.ids)
    && e.eventId in env.ids
  }

  // ---- open_incident ---------------------------------------------------------------------------

  predicate Closes(j: Journal, g: string, env: Env) {
    && g in j.open && j.open[g] in j.incidents
    && j.incidents[j.open[g]].issueId.Some? && env.issueClosed == Some(true) && env.authorized
  }

  /** The episodes listed by the incident that is closed, if one is. */
  function Settles(j: Journal, g: string, env: Env): set<nat> {
    if Closes(j, g, env) then j.incidents[j.open[g]].episodes.Keys else {}
  }

  function AfterOpening(b: Book, g: string, env: Env): Book {
    b.(j := OpenIncident(b.j, g, env).0, settled := b.settled + Settles(b.j, g, env))
  }

  lemma OpeningOnTables(j: Journal, g: string, env: Env)
    ensures var k := OpenIncident(j, g, env).0;
            && k.events == j.events
            && (k == j || (g in j.open && j.open[g] in j.incidents && k.open == j.open - {g}
                           && k.incidents == j.incidents[j.open[g] := j.incidents[j.open[g]].(closed := true)]))
  {
  }

  lemma OpeningStructure(j: Journal, delivered: set<Event>, g: string, env: Env)
    requires Structural(j, delivered)
    ensures Structural(OpenIncident(j, g, env).0, delivered)
  {
    OpeningOnTables(j, g, env);
    hide OpenIncident;
    var k := OpenIncident(j, g, env).0;
    if k != j {
      assert OpenOk(j, g);
      forall m | m in k.incidents
        ensures IncidentOk(k, delivered, m)
      {
        assert IncidentOk(j, delivered, m);
      }
      forall h | h in k.open
        ensures OpenOk(k, h)
      {
        assert OpenOk(j, h);
      }
      forall id | id in k.events
        ensures EventOk(k, delivered, id)
      {
        assert EventOk(j, delivered, id);
      }
    }
  }

  lemma OpeningSourced(j: Journal, delivered: set<Event>, g: string, env: Env)
    requires AllSourced(j, delivered)
    ensures AllSourced(OpenIncident(j, g, env).0, delivered)
  {
    SameEpisodesSourced(j, OpenIncident(j, g, env).0, delivered, delivered);
  }

  lemma OpeningExact(b: Book, g: string, env: Env)
    requires AllExact(b)
    ensures AllExact(AfterOpening(b, g, env))
  {
    var c := AfterOpening(b, g, env);
    forall m | m in c.j.incidents
      ensures ExactAt(c, m)
    {
      assert ExactAt(b, m);
      PayloadsSame(b.j, c.j, m);
      if !c.j.incidents[m].closed && m in b.stained {
        TellsFewer(b.j.incidents[m].episodes, Payloads(b.j, m), b.settled, c.settled);
      }
    }
  }

  lemma OpeningKept(b: Book, g: string, env: Env)
    requires Structural(b.j, b.delivered) && AllKept(b)
    ensures AllKept(AfterOpening(b, g, env))
  {
    var c := AfterOpening(b, g, env);
    assert g in b.j.open ==> OpenOk(b.j, g);
    forall k | k !in c.settled
      ensures Kept(c, k)
    {
      assert Kept(b, k);
      forall id | id in c.j.events && c.j.events[id].payload.episodeId == k
        ensures MarkedOpen(c.j, c.j.events[id])
      {
        assert MarkedOpen(b.j, b.j.events[id]);
      }
    }
    StainsStay(b, c);
  }

  lemma OpeningUnmatched(b: Book, g: string, env: Env)
    requires AllUnmatched(b.j)
    ensures AllUnmatched(AfterOpening(b, g, env).j)
  {
    var c := AfterOpening(b, g, env);
    forall id | id in c.j.events
      ensures Unmatched(c.j, c.j.events[id])
    {
      assert Unmatched(b.j, b.j.events[id]);
    }
  }

  lemma OpeningKeeps(b: Book, g: string, env: Env)
    requires BookInv(b)
    ensures BookInv(AfterOpening(b, g, env))
  {
    hide Structural, AllSourced, AllExact, AllKept, AllUnmatched, OpenIncident, Closes;
    OpeningStructure(b.j, b.delivered, g, env);
    OpeningSourced(b.j, b.delivered, g, env);
    OpeningExact(b, g, env);
    OpeningKept(b, g, env);
    OpeningUnmatched(b, g, env);
  }

  /** What `open_incident` answers: the open incident of the group, if there is one. */
  predicate Answers(j: Journal, g: string, marker: Option<Marker>) {
    if g in j.open then marker == Some(j.open[g]) && j.open[g] in j.incidents && j.open[g].group == g else marker.None?
  }

  lemma OpeningAnswers(j: Journal, delivered: set<Event>, g: string, env: Env)
    requires Structural(j, delivered)
    ensures var (k, r) := OpenIncident(j, g, env); r.Done? ==> Answers(k, g, r.value)
    ensures OpenIncident(j, g, env).0.events == j.events
    ensures OpenIncident(j, g, env).0.incidents.Keys == j.incidents.Keys
  {
    if g in j.open {
      assert OpenOk(j, g);
      assert IncidentOk(j, delivered, j.open[g]);
    }
  }

  // ---- events outside any open incident --------------------------------------------------------

  /** `k` stores one more event, unmatched or under a closed incident. */
  ghost predicate StoresOne(j: Journal, k: Journal, r: EventRecord) {
    && r.payload.eventId !in j.events
    && k.events == j.events[r.payload.eventId := r] && k.incidents == j.incidents && k.open == j.open
    && match r.marker
       case None => r.payload.kind == Recovery
       case Some(m) =>
         && m in j.incidents && j.incidents[m].closed && m.group == r.payload.group
         && r.payload.episodeId in j.incidents[m].episodes
  }

  lemma StoreStructure(j: Journal, k: Journal, delivered: set<Event>, r: EventRecord)
    requires Structural(j, delivered) && StoresOne(j, k, r)
    ensures Structural(k, delivered + {r.payload})
  {
    var d := delivered + {r.payload};
    forall m | m in k.incidents
      ensures IncidentOk(k, d, m)
    {
      assert IncidentOk(j, delivered, m);
      var e :| e in delivered && e.eventId == m.eventId && e.group == m.group && e.episodeId in j.incidents[m].episodes;
      assert e in d;
    }
    forall g | g in k.open
      ensures OpenOk(k, g)
    {
      assert OpenOk(j, g);
    }
    forall id | id in k.events
      ensures EventOk(k, d, id)
    {
      if id != r.payload.eventId {
        assert EventOk(j, delivered, id);
      }
    }
  }

  lemma StoreKeepsExact(b: Book, k: Journal, r: EventRecord)
    requires AllExact(b) && StoresOne(b.j, k, r)
    ensures AllExact(b.(j := k, delivered := b.delivered + {r.payload}))
  {
    var c := b.(j := k, delivered := b.delivered + {r.payload});
    forall m | m in k.incidents
      ensures ExactAt(c, m)
    {
      assert ExactAt(b, m);
      PayloadsAfter(b.j, k, r.payload.eventId, r, m);
    }
  }

  lemma StoreKeepsKept(b: Book, k: Journal, r: EventRecord)
    requires Structural(b.j, b.delivered) && AllKept(b) && StoresOne(b.j, k, r)
    ensures AllKept(b.(j := k, delivered := b.delivered + {r.payload}))
  {
    var c := b.(j := k, delivered := b.delivered + {r.payload});
    forall n | n !in c.settled
      ensures Kept(c, n)
    {
      assert Kept(b, n);
      forall id | id in k.events && k.events[id].payload.episodeId == n
        ensures MarkedOpen(k, k.events[id])
      {
        if id != r.payload.eventId {
          assert MarkedOpen(b.j, b.j.events[id]);
        }
      }
    }
    StainsStay(b, c);
  }

  lemma StoreKeepsCore(b: Book, k: Journal, r: EventRecord)
    requires Core(b) && SenderLaw(b.delivered + {r.payload}) && StoresOne(b.j, k, r)
    ensures Core(b.(j := k, delivered := b.delivered + {r.payload}))
  {
    assert AllSourced(k, b.delivered + {r.payload}) by {
      SameEpisodesSourced(b.j, k, b.delivered, b.delivered + {r.payload});
    }
    hide Structural, AllSourced, AllExact, AllKept, StoresOne;
    StoreStructure(b.j, k, b.delivered, r);
    StoreKeepsExact(b, k, r);
    StoreKeepsKept(b, k, r);
  }

  lemma StoreKeeps(b: Book, k: Journal, r: EventRecord)
    requires BookInv(b) && SenderLaw(b.delivered + {r.payload}) && StoresOne(b.j, k, r)
    requires Unmatched(b.j, r)
    ensures BookInv(b.(j := k, delivered := b.delivered + {r.payload}))
  {
    hide Core;
    assert Core(b.(j := k, delivered := b.delivered + {r.payload})) by {
      StoreKeepsCore(b, k, r);
    }
    forall id | id in k.events
      ensures Unmatched(k, k.events[id])
    {
      if id != r.payload.eventId {
        assert Unmatched(b.j, b.j.events[id]);
      }
    }
  }

  // ---- founding --------------------------------------------------------------------------------

  /** An incident whose marker names this event lists this event's episode. */
  lemma FounderIsListed(j: Journal, delivered: set<Event>, e: Event)
    requires Structural(j, delivered) && SenderLaw(delivered + {e})
    ensures var m := Marker(e.group, e.eventId);
            m in j.incidents ==> e.episodeId in j.incidents[m].episodes && (j.incidents[m].closed || e.group in j.open)
  {
    var m := Marker(e.group, e.eventId);
    if m in j.incidents {
      assert IncidentOk(j, delivered, m);
      var f :| f in delivered && f.eventId == m.eventId && f.group == m.group && f.episodeId in j.incidents[m].episodes;
      assert f in delivered + {e} && e in delivered + {e};
      assert Coherent(f, e);
    }
  }

  /** A newly built marker never meets a retained incident: the founding episode is still listed
      there, so its event would have been recognised as one of a closed episode. */
  lemma MarkerIsNew(j: Journal, delivered: set<Event>, e: Event, markers: seq<Marker>)
    requires Structural(j, delivered) && SenderLaw(delivered + {e})
    requires e.group !in j.open
    requires forall m | m in j.incidents :: m in markers
    requires FirstClosed(j, e, markers).None?
    ensures Marker(e.group, e.eventId) !in j.incidents
  {
    FounderIsListed(j, delivered, e);
    assert forall m | m in j.incidents :: IncidentOk(j, delivered, m) && !HoldsClosed(j, m, e);
  }

  /** Founding over events that still carry the marker of an earlier, pruned incident. */
  ghost predicate Stale(j: Journal, e: Event) {
    Payloads(j, Marker(e.group, e.eventId)) != {}
  }

  ghost function AfterFounding(b: Book, k: Journal, e: Event): Book {
    var m := Marker(e.group, e.eventId);
    b.(j := k, delivered := b.delivered + {e}, stained := if Stale(b.j, e) then b.stained + {m} else b.stained - {m})
  }

  /** `k` is `j` with a new incident founded and joined by one fault. */
  ghost predicate FoundsOne(j: Journal, k: Journal, e: Event, r: EventRecord) {
    var m := Marker(e.group, e.eventId);
    && e.kind != Recovery && e.eventId !in j.events && m !in j.incidents && e.group !in j.open
    && r.payload == e && r.marker == Some(m)
    && k.events == j.events[e.eventId := r]
    && k.incidents == j.incidents[m := Joined(FoundedIncident(e), e)]
    && k.open == j.open[e.group := m]
  }

  lemma FoundingStructure(j: Journal, k: Journal, delivered: set<Event>, e: Event, r: EventRecord)
    requires Structural(j, delivered) && FoundsOne(j, k, e, r)
    ensures Structural(k, delivered + {e})
  {
    var d := delivered + {e};
    var m := Marker(e.group, e.eventId);
    forall n | n in k.incidents
      ensures IncidentOk(k, d, n)
    {
      if n == m {
        assert e in d && e.episodeId in k.incidents[m].episodes;
      } else {
        assert IncidentOk(j, delivered, n);
        var f :| f in delivered && f.eventId == n.eventId && f.group == n.group
            && f.episodeId in j.incidents[n].episodes;
        assert f in d;
      }
    }
    forall g | g in k.open
      ensures OpenOk(k, g)
    {
      if g != e.group {
        assert OpenOk(j, g);
      }
    }
    forall id | id in k.events
      ensures EventOk(k, d, id)
    {
      if id != e.eventId {
        assert EventOk(j, delivered, id);
      }
    }
  }

  lemma FoundingSourced(j: Journal, k: Journal, delivered: set<Event>, e: Event, r: EventRecord)
    requires AllSourced(j, delivered) && FoundsOne(j, k, e, r)
    ensures AllSourced(k, delivered + {e})
  {
    var m := Marker(e.group, e.eventId);
    forall n | n in k.incidents
      ensures Sourced(k.incidents[n], delivered + {e})
    {
      if n == m {
        SourcedJoin(FoundedIncident(e), delivered, e);
      } else {
        assert Sourced(j.incidents[n], delivered);
        SourcedLater(j.incidents[n], k.incidents[n], delivered, delivered + {e});
      }
    }
  }

  lemma FoundedExact(e: Event)
    requires e.kind != Recovery
    ensures Exact(Joined(FoundedIncident(e), e), {e})
  {
    assert Exact(FoundedIncident(e), {});
    JoinedExact(FoundedIncident(e), {}, e);
    assert {} + {e} == {e};
  }

  /** In a group that is not open, whatever still carries a marker is of a settled episode. */
  lemma StaleIsSettled(b: Book, m: Marker)
    requires Structural(b.j, b.delivered) && AllKept(b) && m.group !in b.j.open
    ensures forall e | e in Payloads(b.j, m) :: e in b.delivered && e.group == m.group && e.episodeId in b.settled
  {
    forall e | e in Payloads(b.j, m)
      ensures e in b.delivered && e.group == m.group && e.episodeId in b.settled
    {
      var id :| id in b.j.events && b.j.events[id].marker == Some(m) && b.j.events[id].payload == e;
      assert EventOk(b.j, b.delivered, id);
      assert e.episodeId !in b.settled ==> Kept(b, e.episodeId) && MarkedOpen(b.j, b.j.events[id]);
    }
  }

  /** Over stale events the new incident tells its own episode, unless that is settled too. */
  lemma FoundedTells(s: set<Event>, e: Event, settled: set<nat>)
    requires e.kind != Recovery && forall f | f in s :: f.episodeId in settled
    ensures TellsBut(Joined(FoundedIncident(e), e).episodes, s + {e}, settled)
  {
    FoundedExact(e);
    hide Exact, Tells;
    assert Tells(Joined(FoundedIncident(e), e).episodes, {e}) by {
      ExactTells(Joined(FoundedIncident(e), e), {e});
    }
    TellsAll(Joined(FoundedIncident(e), e).episodes, {e}, settled);
    assert Without(s + {e}, settled) == Without({e}, settled);
  }

  lemma ExactTells(inc: Incident, s: set<Event>)
    requires Exact(inc, s)
    ensures Tells(inc.episodes, s)
  {
  }

  lemma FoundingIsExactAt(b: Book, k: Journal, e: Event, r: EventRecord)
    requires Structural(b.j, b.delivered) && AllKept(b) && FoundsOne(b.j, k, e, r)
    ensures ExactAt(AfterFounding(b, k, e), Marker(e.group, e.eventId))
  {
    hide Payloads, Structural, Tells, TellsBut, Dated, AllKept, Joined, FoundedIncident;
    var m := Marker(e.group, e.eventId);
    PayloadsAfter(b.j, k, e.eventId, r, m);
    NewPayload(b.j, b.delivered, m, e);
    FoundedExact(e);
    StaleIsSettled(b, m);
    FoundedTells(Payloads(b.j, m), e, b.settled);
    assert |Payloads(b.j, m) + {e}| == |Payloads(b.j, m)| + 1;
    assert Payloads(b.j, m) == {} ==> Payloads(k, m) == {e};
    assert |Payloads(b.j, m)| == 0 ==> Payloads(b.j, m) == {};
    FoundedCountsOne(e);
  }

  lemma FoundedCountsOne(e: Event)
    ensures Joined(FoundedIncident(e), e).eventCount == 1 && !Joined(FoundedIncident(e), e).closed
  {
  }

  lemma FoundingExact(b: Book, k: Journal, e: Event, r: EventRecord)
    requires Structural(b.j, b.delivered) && AllExact(b) && AllKept(b) && FoundsOne(b.j, k, e, r)
    ensures AllExact(AfterFounding(b, k, e))
  {
    var c := AfterFounding(b, k, e);
    var m := Marker(e.group, e.eventId);
    FoundingIsExactAt(b, k, e, r);
    hide Structural, Payloads, Exact, Undercounts, AllKept;
    forall n | n in k.incidents
      ensures ExactAt(c, n)
    {
      if n != m {
        assert ExactAt(b, n);
        PayloadsAfter(b.j, k, e.eventId, r, n);
        assert Payloads(b.j, n) + {} == Payloads(b.j, n);
      }
    }
  }

  lemma FoundingKept(b: Book, k: Journal, e: Event, r: EventRecord)
    requires Structural(b.j, b.delivered) && AllKept(b) && FoundsOne(b.j, k, e, r)
    ensures AllKept(AfterFounding(b, k, e))
  {
    var c := AfterFounding(b, k, e);
    forall n | n !in c.settled
      ensures Kept(c, n)
    {
      assert Kept(b, n);
      forall id | id in k.events && k.events[id].payload.episodeId == n
        ensures MarkedOpen(k, k.events[id])
      {
        if id != e.eventId {
          assert MarkedOpen(b.j, b.j.events[id]);
        }
      }
    }
    FoundingStains(b, k, e, r);
  }

  lemma FoundingStains(b: Book, k: Journal, e: Event, r: EventRecord)
    requires Structural(b.j, b.delivered) && AllKept(b) && FoundsOne(b.j, k, e, r)
    ensures var c := AfterFounding(b, k, e); forall m | m in c.stained :: StainSettled(c, m)
  {
    hide Structural, Kept, Payloads;
    var c, m := AfterFounding(b, k, e), Marker(e.group, e.eventId);
    StainsStay(b, c);
    StaleIsSettled(b, m);
    if Stale(b.j, e) {
      var f :| f in Payloads(b.j, m);
      assert f in c.delivered && f.group == m.group && f.episodeId in c.settled;
    }
  }

  lemma FoundingKeepsCore(b: Book, k: Journal, e: Event, r: EventRecord)
    requires Core(b) && SenderLaw(b.delivered + {e}) && FoundsOne(b.j, k, e, r)
    ensures Core(AfterFounding(b, k, e))
  {
    hide Structural, AllSourced, AllExact, AllKept, FoundsOne, Stale;
    FoundingStructure(b.j, k, b.delivered, e, r);
    FoundingSourced(b.j, k, b.delivered, e, r);
    FoundingExact(b, k, e, r);
    FoundingKept(b, k, e, r);
  }

  /** The new incident's count is exact if and only if no stored event already carried its marker. */
  lemma FoundingCountIsExact(b: Book, k: Journal, e: Event, r: EventRecord)
    requires Structural(b.j, b.delivered) && FoundsOne(b.j, k, e, r)
    ensures var m := Marker(e.group, e.eventId);
            k.incidents[m].eventCount == |Payloads(k, m)| <==> !Stale(b.j, e)
  {
    var m := Marker(e.group, e.eventId);
    PayloadsAfter(b.j, k, e.eventId, r, m);
    NewPayload(b.j, b.delivered, m, e);
    assert |Payloads(b.j, m) + {e}| == |Payloads(b.j, m)| + 1;
  }

  // ---- adopting retained recoveries ------------------------------------------------------------

  /** `m` is the open incident of the event's group and lists its episode. */
  predicate Hosts(j: Journal, m: Marker, e: Event) {
    && m in j.incidents && m.group == e.group && e.group in j.open && j.open[e.group] == m
    && e.episodeId in j.incidents[m].episodes
  }

  /** Adopting only marks unmatched recoveries: nothing else moves. */
  ghost predicate OnlyMarks(j: Journal, k: Journal, m: Marker) {
    && k.open == j.open && k.events.Keys == j.events.Keys && k.incidents.Keys == j.incidents.Keys
    && (forall id | id in k.events && k.events[id].marker.None? :: k.events[id] == j.events[id])
    && (forall n | n in k.incidents :: k.incidents[n].episodes.Keys == j.incidents[n].episodes.Keys)
  }

  lemma AdoptShape(j: Journal, m: Marker, e: Event, id: nat)
    requires Hosts(j, m, e) && id in j.events && Matches(j.events[id], e) && j.events[id].payload.eventId == id
    ensures var k := Adopt(j, m, e, id);
            JoinsOne(j, k, m, id, j.events[id].(marker := Some(m))) && OnlyMarks(j, k, m) && Hosts(k, m, e)
                && !Matches(k.events[id], e)
  {
  }

  lemma CoreEventOk(b: Book, id: nat)
    requires Core(b) && id in b.j.events
    ensures EventOk(b.j, b.delivered, id) && SenderLaw(b.delivered)
  {
  }

  lemma AdoptOne(b: Book, m: Marker, e: Event, id: nat)
    requires Core(b) && Hosts(b.j, m, e)
    ensures var k := Adopt(b.j, m, e, id);
            Core(b.(j := k)) && Hosts(k, m, e) && OnlyMarks(b.j, k, m) && (id in k.events ==> !Matches(k.events[id], e))
  {
    hide Core, JoinsOne;
    if id in b.j.events && Matches(b.j.events[id], e) {
      var r := b.j.events[id].(marker := Some(m));
      CoreEventOk(b, id);
      assert b.delivered + {r.payload} == b.delivered;
      AdoptShape(b.j, m, e, id);
      JoinKeepsCore(b, Adopt(b.j, m, e, id), m, id, r);
    }
  }

  lemma {:induction false} AdoptEvery(b: Book, m: Marker, e: Event, ids: seq<nat>)
    requires Core(b) && Hosts(b.j, m, e)
    ensures var k := AdoptAll(b.j, m, e, ids);
            && Core(b.(j := k)) && Hosts(k, m, e) && OnlyMarks(b.j, k, m)
            && (forall id | id in ids && id in k.events :: !Matches(k.events[id], e))
  {
    hide Core;
    if ids != [] {
      var before := ids[..|ids| - 1];
      AdoptEvery(b, m, e, before);
      AdoptOne(b.(j := AdoptAll(b.j, m, e, before)), m, e, ids[|ids| - 1]);
      assert ids == before + [ids[|ids| - 1]];
    }
  }

  /** Unmatched everywhere but in one episode, whose recoveries are then all adopted. */
  ghost predicate UnmatchedElsewhere(j: Journal, episode: nat) {
    forall id | id in j.events && j.events[id].payload.episodeId != episode :: Unmatched(j, j.events[id])
  }

  lemma AdoptionSettles(b: Book, m: Marker, e: Event, ids: seq<nat>)
    requires Core(b) && Hosts(b.j, m, e) && UnmatchedElsewhere(b.j, e.episodeId) && e in b.delivered
    requires forall id | id in b.j.events :: id in ids
    ensures BookInv(b.(j := AdoptAll(b.j, m, e, ids)))
  {
    AdoptEvery(b, m, e, ids);
    var k := AdoptAll(b.j, m, e, ids);
    hide Core;
    forall id | id in k.events
      ensures Unmatched(k, k.events[id])
    {
      UnmatchedAfterAdoption(b, k, m, e, ids, id);
    }
  }

  lemma UnmatchedAfterAdoption(b: Book, k: Journal, m: Marker, e: Event, ids: seq<nat>, id: nat)
    requires Core(b.(j := k)) && OnlyMarks(b.j, k, m) && UnmatchedElsewhere(b.j, e.episodeId) && e in b.delivered
    requires id in k.events && id in ids
    requires forall i | i in ids && i in k.events :: !Matches(k.events[i], e)
    ensures Unmatched(k, k.events[id])
  {
    var r := k.events[id];
    if r.marker.None? {
      assert EventOk(k, b.delivered, id);
      assert Coherent(r.payload, e);
      if r.payload.episodeId != e.episodeId {
        assert Unmatched(b.j, b.j.events[id]);
      }
    }
  }

  // ---- process ---------------------------------------------------------------------------------

  /** Whether `process` gets as far as `open_incident`. */
  predicate ReachesOpening(j: Journal, d: Delivery) {
    !RunConflict(j, d) && d.event.eventId !in j.events
  }

  predicate FoundsMarker(j: Journal, k: Journal, m: Marker) {
    m in k.incidents && m !in j.incidents
  }

  /** The books after one delivery, whether it was accepted or refused. */
  ghost function AfterDelivery(b: Book, d: Delivery, env: Env): Book {
    var (k, r) := Process(b.j, d, env);
    var m := Marker(d.event.group, d.event.eventId);
    Book(k,
         if r.Done? then b.delivered + {d.event} else b.delivered,
         if ReachesOpening(b.j, d) then b.settled + Settles(b.j, d.event.group, env) else b.settled,
         b.dropped,
         if !FoundsMarker(b.j, k, m) then b.stained
         else if Stale(b.j, d.event) then b.stained + {m} else b.stained - {m})
  }

  // The first delivery of an event, after the group's incident was opened.

  lemma ClosedEpisodeKeeps(b: Book, d: Delivery, m: Marker, now: int)
    requires BookInv(b) && SenderLaw(b.delivered + {d.event}) && d.event.eventId !in b.j.events
             && HoldsClosed(b.j, m, d.event)
    ensures BookInv(b.(j := Stored(b.j, d, Some(m), ClosedEpisodeObservation, now),
                       delivered := b.delivered + {d.event}))
  {
    assert IncidentOk(b.j, b.delivered, m);
    StoresStored(b.j, d, m, ClosedEpisodeObservation, now);
    hide BookInv, Stored;
    StoreKeeps(b, Stored(b.j, d, Some(m), ClosedEpisodeObservation, now), EventRecordOf(d, Some(m), now));
  }

  lemma StoresStored(j: Journal, d: Delivery, m: Marker, outcome: Outcome, now: int)
    requires d.event.eventId !in j.events && HoldsClosed(j, m, d.event) && m.group == d.event.group
    ensures StoresOne(j, Stored(j, d, Some(m), outcome, now), EventRecordOf(d, Some(m), now))
  {
  }

  /** Under the law an episode keeps one source and signal. */
  lemma EpisodeKeepsSignal(b: Book, m: Marker, e: Event)
    requires Core(b) && SenderLaw(b.delivered + {e}) && m in b.j.incidents && e.episodeId in b.j.incidents[m].episodes
    ensures SameSignal(b.j.incidents[m].episodes[e.episodeId], e)
  {
    assert Sourced(b.j.incidents[m], b.delivered);
    var f :| Sources(f, b.j.incidents[m].episodes[e.episodeId], b.delivered, e.episodeId);
    assert f in b.delivered + {e} && e in b.delivered + {e};
    assert Coherent(f, e);
  }

  lemma RecoveryKeeps(b: Book, marker: Option<Marker>, d: Delivery, now: int)
    requires BookInv(b) && SenderLaw(b.delivered + {d.event}) && d.event.eventId !in b.j.events
    requires d.event.kind == Recovery && Answers(b.j, d.event.group, marker)
    ensures BookInv(b.(j := ProcessRecovery(b.j, marker, d, now).0, delivered := b.delivered + {d.event}))
  {
    hide Core;
    var e := d.event;
    if marker.Some? && e.episodeId in b.j.incidents[marker.value].episodes {
      EpisodeKeepsSignal(b, marker.value, e);
      AdmittedRecoveryKeeps(b, marker.value, d, now);
    } else {
      StoreKeeps(b, Stored(b.j, d, None, RecoveryUnmatched, now), EventRecordOf(d, None, now));
    }
  }

  lemma AdmittedRecoveryKeeps(b: Book, m: Marker, d: Delivery, now: int)
    requires BookInv(b) && SenderLaw(b.delivered + {d.event}) && d.event.eventId !in b.j.events
    requires d.event.kind == Recovery && Hosts(b.j, m, d.event)
    ensures forall outcome :: BookInv(b.(j := Admit(b.j, m, d, outcome, now), delivered := b.delivered + {d.event}))
  {
    hide Core;
    forall outcome
      ensures BookInv(b.(j := Admit(b.j, m, d, outcome, now), delivered := b.delivered + {d.event}))
    {
      var k := Admit(b.j, m, d, outcome, now);
      JoinKeepsCore(b, k, m, d.event.eventId, EventRecordOf(d, Some(m), now));
      forall id | id in k.events
        ensures Unmatched(k, k.events[id])
      {
        if id != d.event.eventId {
          assert Unmatched(b.j, b.j.events[id]);
        }
      }
    }
  }

  // A failure or escalation: admitted to the open incident, or founding a new one.

  lemma FaultJoinsOpen(b: Book, m: Marker, d: Delivery, now: int)
    requires BookInv(b) && SenderLaw(b.delivered + {d.event}) && d.event.eventId !in b.j.events
             && d.event.kind != Recovery
    requires m in b.j.incidents && m.group == d.event.group && d.event.group in b.j.open && b.j.open[d.event.group] == m
    ensures var k := Admit(b.j, m, d, IncidentEvent, now);
            && Core(b.(j := k, delivered := b.delivered + {d.event}))
            && Hosts(k, m, d.event) && UnmatchedElsewhere(k, d.event.episodeId)
            && k.events.Keys == b.j.events.Keys + {d.event.eventId}
  {
    hide Core;
    var k := Admit(b.j, m, d, IncidentEvent, now);
    JoinKeepsCore(b, k, m, d.event.eventId, EventRecordOf(d, Some(m), now));
    forall id | id in k.events && k.events[id].payload.episodeId != d.event.episodeId
      ensures Unmatched(k, k.events[id])
    {
      assert Unmatched(b.j, b.j.events[id]);
    }
  }

  lemma FaultFounds(b: Book, d: Delivery, now: int)
    requires BookInv(b) && SenderLaw(b.delivered + {d.event}) && d.event.eventId !in b.j.events
             && d.event.kind != Recovery
    requires d.event.group !in b.j.open && Marker(d.event.group, d.event.eventId) !in b.j.incidents
    ensures var m := Marker(d.event.group, d.event.eventId);
            var k := Admit(Found(b.j, d.event), m, d, IncidentEvent, now);
            && Core(AfterFounding(b, k, d.event))
            && Hosts(k, m, d.event) && UnmatchedElsewhere(k, d.event.episodeId)
            && k.events.Keys == b.j.events.Keys + {d.event.eventId}
  {
    hide Core;
    var m := Marker(d.event.group, d.event.eventId);
    var k := Admit(Found(b.j, d.event), m, d, IncidentEvent, now);
    FoundingKeepsCore(b, k, d.event, EventRecordOf(d, Some(m), now));
    forall id | id in k.events && k.events[id].payload.episodeId != d.event.episodeId
      ensures Unmatched(k, k.events[id])
    {
      assert Unmatched(b.j, b.j.events[id]);
    }
  }

  ghost function AfterFault(b: Book, marker: Option<Marker>, k: Journal, e: Event): Book {
    if marker.None? then AfterFounding(b, k, e) else b.(j := k, delivered := b.delivered + {e})
  }

  lemma FaultFoundsKeeps(b: Book, d: Delivery, env: Env)
    requires BookInv(b) && SenderLaw(b.delivered + {d.event}) && d.event.eventId !in b.j.events
             && d.event.kind != Recovery
    requires d.event.group !in b.j.open && Marker(d.event.group, d.event.eventId) !in b.j.incidents
    requires CoversTables(env, b.j, d.event)
    ensures var m := Marker(d.event.group, d.event.eventId);
            var k := AdoptAll(Admit(Found(b.j, d.event), m, d, IncidentEvent, env.now), m, d.event, env.ids);
            BookInv(AfterFounding(b, k, d.event)) && FoundsMarker(b.j, k, m)
  {
    hide BookInv, Stale;
    var m := Marker(d.event.group, d.event.eventId);
    FaultFounds(b, d, env.now);
    FaultSettles(AfterFounding(b, Admit(Found(b.j, d.event), m, d, IncidentEvent, env.now), d.event), m, d.event, env);
  }

  lemma FaultJoinsKeeps(b: Book, m: Marker, d: Delivery, env: Env)
    requires BookInv(b) && SenderLaw(b.delivered + {d.event}) && d.event.eventId !in b.j.events
             && d.event.kind != Recovery
    requires m in b.j.incidents && m.group == d.event.group && d.event.group in b.j.open && b.j.open[d.event.group] == m
    requires CoversTables(env, b.j, d.event)
    ensures var k := AdoptAll(Admit(b.j, m, d, IncidentEvent, env.now), m, d.event, env.ids);
            BookInv(b.(j := k, delivered := b.delivered + {d.event})) && k.incidents.Keys == b.j.incidents.Keys
  {
    hide BookInv;
    FaultJoinsOpen(b, m, d, env.now);
    FaultSettles(b.(j := Admit(b.j, m, d, IncidentEvent, env.now), delivered := b.delivered + {d.event}), m, d.event,
                 env);
  }

  lemma BookParts(b: Book)
    requires BookInv(b)
    ensures Structural(b.j, b.delivered) && SenderLaw(b.delivered)
  {
  }

  lemma FaultKeeps(b: Book, marker: Option<Marker>, d: Delivery, env: Env)
    requires BookInv(b) && SenderLaw(b.delivered + {d.event}) && d.event.eventId !in b.j.events
             && d.event.kind != Recovery
    requires Answers(b.j, d.event.group, marker) && CoversTables(env, b.j, d.event)
    requires FirstClosed(b.j, d.event, env.markers).None?
    ensures var (k, r) := ProcessFault(b.j, marker, d, env);
            if r.Done? then
              BookInv(AfterFault(b, marker, k, d.event))
              && (marker.None? ==> FoundsMarker(b.j, k, Marker(d.event.group, d.event.eventId)))
              && (marker.Some? ==> k.incidents.Keys == b.j.incidents.Keys)
            else k == b.j
  {
    hide BookInv, Stale;
    if marker.None? {
      BookParts(b);
      MarkerIsNew(b.j, b.delivered, d.event, env.markers);
      FaultFoundsKeeps(b, d, env);
    } else {
      FaultJoinsKeeps(b, marker.value, d, env);
    }
  }

  lemma FaultSettles(c: Book, m: Marker, e: Event, env: Env)
    requires Core(c) && Hosts(c.j, m, e) && UnmatchedElsewhere(c.j, e.episodeId) && e in c.delivered
    requires forall id | id in c.j.events :: id in env.ids
    ensures BookInv(c.(j := AdoptAll(c.j, m, e, env.ids)))
    ensures AdoptAll(c.j, m, e, env.ids).incidents.Keys == c.j.incidents.Keys
  {
    hide Core;
    AdoptionSettles(c, m, e, env.ids);
    AdoptEvery(c, m, e, env.ids);
  }

  /** The rest of a first delivery, from the books after opening. */
  ghost function AfterOpened(c: Book, marker: Option<Marker>, d: Delivery, env: Env): Book {
    var closed := FirstClosed(c.j, d.event, env.markers);
    if closed.Some? then
      c.(j := Stored(c.j, d, closed, ClosedEpisodeObservation, env.now), delivered := c.delivered + {d.event})
    else if d.event.kind == Recovery then
      c.(j := ProcessRecovery(c.j, marker, d, env.now).0, delivered := c.delivered + {d.event})
    else if !Answers(c.j, d.event.group, marker) then c
    else
      var (k, r) := ProcessFault(c.j, marker, d, env);
      if r.Done? then AfterFault(c, marker, k, d.event) else c
  }

  lemma OpenedKeeps(c: Book, marker: Option<Marker>, d: Delivery, env: Env)
    requires BookInv(c) && SenderLaw(c.delivered + {d.event}) && d.event.eventId !in c.j.events
    requires Answers(c.j, d.event.group, marker) && CoversTables(env, c.j, d.event)
    ensures BookInv(AfterOpened(c, marker, d, env))
  {
    hide BookInv;
    var closed := FirstClosed(c.j, d.event, env.markers);
    if closed.Some? {
      ClosedEpisodeKeeps(c, d, closed.value, env.now);
    } else if d.event.kind == Recovery {
      RecoveryKeeps(c, marker, d, env.now);
    } else {
      FaultKeeps(c, marker, d, env);
    }
  }

  /** Only a fault without an open incident builds a marker. */
  lemma OpenedFounds(c: Book, marker: Option<Marker>, d: Delivery, env: Env)
    requires BookInv(c) && SenderLaw(c.delivered + {d.event}) && d.event.eventId !in c.j.events
    requires Answers(c.j, d.event.group, marker) && CoversTables(env, c.j, d.event)
    ensures var m := Marker(d.event.group, d.event.eventId);
            AfterOpened(c, marker, d, env).stained ==
            (if !FoundsMarker(c.j, AfterOpened(c, marker, d, env).j, m) then c.stained
             else if Stale(c.j, d.event) then c.stained + {m} else c.stained - {m})
  {
    hide BookInv, Stale;
    var closed := FirstClosed(c.j, d.event, env.markers);
    if closed.None? && d.event.kind != Recovery {
      FaultKeeps(c, marker, d, env);
    }
  }

  lemma OpenedIsDelivery(b: Book, d: Delivery, env: Env)
    requires BookInv(b) && SenderLaw(b.delivered + {d.event}) && ReachesOpening(b.j, d)
             && CoversTables(env, b.j, d.event)
    ensures var (k, answer) := OpenIncident(b.j, d.event.group, env);
            var c := AfterOpening(b, d.event.group, env);
            AfterDelivery(b, d, env) == if answer.Done? then AfterOpened(c, answer.value, d, env) else c
  {
    hide BookInv, OpenIncident, Closes;
    var g := d.event.group;
    var c := AfterOpening(b, g, env);
    OpeningKeeps(b, g, env);
    BookParts(b);
    OpeningAnswers(b.j, b.delivered, g, env);
    PayloadsSame(b.j, c.j, Marker(g, d.event.eventId));
    var (k, answer) := OpenIncident(b.j, g, env);
    if answer.Done? {
      OpenedFounds(c, answer.value, d, env);
      if FirstClosed(c.j, d.event, env.markers).None? && d.event.kind != Recovery {
        FaultKeeps(c, answer.value, d, env);
      }
    }
  }

  lemma FirstKeeps(b: Book, d: Delivery, env: Env)
    requires BookInv(b) && SenderLaw(b.delivered + {d.event}) && ReachesOpening(b.j, d)
    requires CoversTables(env, b.j, d.event)
    ensures BookInv(AfterDelivery(b, d, env))
  {
    hide BookInv, OpenIncident, Closes, AfterDelivery, AfterOpened;
    var g := d.event.group;
    OpenedIsDelivery(b, d, env);
    OpeningKeeps(b, g, env);
    BookParts(b);
    OpeningAnswers(b.j, b.delivered, g, env);
    var (k, answer) := OpenIncident(b.j, g, env);
    if answer.Done? {
      OpenedKeeps(AfterOpening(b, g, env), answer.value, d, env);
    }
  }

  // ---- a repeated delivery ---------------------------------------------------------------------

  /** `k` keeps every payload, marker, episode and count of `j`; the marked incident of a repeated
      event may only look later. */
  ghost predicate Repeats(j: Journal, k: Journal, e: Event) {
    && k.open == j.open && k.events.Keys == j.events.Keys && k.incidents.Keys == j.incidents.Keys
    && (forall id | id in j.events ::
          k.events[id].payload == j.events[id].payload && k.events[id].marker == j.events[id].marker)
    && (forall m | m in j.incidents :: k.incidents[m] == j.incidents[m]
                                       || (k.incidents[m] == Attached(j.incidents[m], e, false) && e in Payloads(j, m)))
  }

  lemma RepeatedPayloads(j: Journal, k: Journal, e: Event, m: Marker)
    requires Repeats(j, k, e)
    ensures Payloads(k, m) == Payloads(j, m)
  {
    forall f | f in Payloads(j, m)
      ensures f in Payloads(k, m)
    {
      var id :| id in j.events && j.events[id].marker == Some(m) && j.events[id].payload == f;
      assert id in k.events && k.events[id].payload == f;
    }
  }

  lemma RepeatStructure(j: Journal, k: Journal, delivered: set<Event>, e: Event)
    requires Structural(j, delivered) && Repeats(j, k, e)
    ensures Structural(k, delivered)
  {
    forall m | m in k.incidents
      ensures IncidentOk(k, delivered, m)
    {
      assert IncidentOk(j, delivered, m);
    }
    forall g | g in k.open
      ensures OpenOk(k, g)
    {
      assert OpenOk(j, g);
    }
    forall id | id in k.events
      ensures EventOk(k, delivered, id)
    {
      assert EventOk(j, delivered, id);
    }
  }

  lemma LaterStaysDated(last: Option<int>, s: set<Event>, e: Event)
    requires Dated(last, s) && e in s
    ensures Dated(Later(last, e.occurredAt), s)
  {
  }

  lemma RepeatExact(b: Book, k: Journal, e: Event)
    requires AllExact(b) && Repeats(b.j, k, e)
    ensures AllExact(b.(j := k))
  {
    forall m | m in k.incidents
      ensures ExactAt(b.(j := k), m)
    {
      assert ExactAt(b, m);
      RepeatedPayloads(b.j, k, e, m);
      if !b.j.incidents[m].closed && m !in b.stained && e in Payloads(b.j, m) {
        LaterStaysDated(b.j.incidents[m].lastEventAt, Payloads(b.j, m), e);
      }
    }
  }

  lemma RepeatKept(b: Book, k: Journal, e: Event)
    requires AllKept(b) && Repeats(b.j, k, e)
    ensures AllKept(b.(j := k))
  {
    hide Payloads;
    forall n | n !in b.settled
      ensures Kept(b.(j := k), n)
    {
      assert Kept(b, n);
      forall id | id in k.events && k.events[id].payload.episodeId == n
        ensures MarkedOpen(k, k.events[id])
      {
        assert MarkedOpen(b.j, b.j.events[id]);
      }
    }
    StainsStay(b, b.(j := k));
  }

  lemma RepeatUnmatched(j: Journal, k: Journal, e: Event)
    requires AllUnmatched(j) && Repeats(j, k, e)
    ensures AllUnmatched(k)
  {
    forall id | id in k.events
      ensures Unmatched(k, k.events[id])
    {
      assert Unmatched(j, j.events[id]);
    }
  }

  lemma RepeatKeeps(b: Book, k: Journal, e: Event)
    requires BookInv(b) && Repeats(b.j, k, e)
    ensures BookInv(b.(j := k))
  {
    assert AllSourced(k, b.delivered) by {
      SameEpisodesSourced(b.j, k, b.delivered, b.delivered);
    }
    hide Structural, AllSourced, AllExact, AllKept, AllUnmatched, Repeats;
    RepeatStructure(b.j, k, b.delivered, e);
    RepeatExact(b, k, e);
    RepeatKept(b, k, e);
    RepeatUnmatched(b.j, k, e);
  }

  lemma MarkedIsPayload(j: Journal, id: nat)
    requires id in j.events && j.events[id].marker.Some?
    ensures j.events[id].payload in Payloads(j, j.events[id].marker.value)
  {
  }

  /** What a repeated delivery may do to the tables. */
  lemma AgainOnTables(j: Journal, d: Delivery, env: Env)
    requires d.event.eventId in j.events
    ensures var (k, result), r := ProcessAgain(j, d, env), j.events[d.event.eventId];
            && k.open == j.open
            && (k.events == j.events || k.events == j.events[d.event.eventId := Enriched(r, d)])
            && (k.incidents == j.incidents
                || (r.payload == d.event && r.marker.Some? && r.marker.value in j.incidents
                    && k.incidents
                       == j.incidents[r.marker.value := Attached(j.incidents[r.marker.value], d.event, false)]))
            && (result.Done? ==> r.payload == d.event)
  {
    hide Enriched, Attached, Recorded;
    RecordingFrame(j, d, env);
  }

  lemma RecordingFrame(j: Journal, d: Delivery, env: Env)
    ensures forall k: Journal, r: RunRecord ::
              var l := Recorded(k, d.run, r); l.open == k.open && l.events == k.events && l.incidents == k.incidents
  {
  }

  lemma AgainRepeats(j: Journal, d: Delivery, env: Env)
    requires d.event.eventId in j.events
    ensures Repeats(j, ProcessAgain(j, d, env).0, d.event)
    ensures ProcessAgain(j, d, env).1.Done? ==> j.events[d.event.eventId].payload == d.event
  {
    AgainOnTables(j, d, env);
    hide Payloads, ProcessAgain;
    var r := j.events[d.event.eventId];
    if r.marker.Some? {
      MarkedIsPayload(j, d.event.eventId);
    }
  }

  lemma AgainKeeps(b: Book, d: Delivery, env: Env)
    requires BookInv(b) && d.event.eventId in b.j.events && !RunConflict(b.j, d)
    ensures BookInv(AfterDelivery(b, d, env))
  {
    hide BookInv, ProcessAgain, Repeats;
    AgainRepeats(b.j, d, env);
    RepeatKeeps(b, ProcessAgain(b.j, d, env).0, d.event);
    BookParts(b);
    assert EventOk(b.j, b.delivered, d.event.eventId);
    RepeatKeys(b.j, ProcessAgain(b.j, d, env).0, d.event);
    if ProcessAgain(b.j, d, env).1.Done? {
      assert b.delivered + {d.event} == b.delivered;
    }
  }

  lemma RepeatKeys(j: Journal, k: Journal, e: Event)
    requires Repeats(j, k, e)
    ensures k.incidents.Keys == j.incidents.Keys
  {
  }

  /** Every delivery, first or repeated, accepted or refused, keeps the invariant. */
  lemma DeliveryKeeps(b: Book, d: Delivery, env: Env)
    requires BookInv(b) && SenderLaw(b.delivered + {d.event}) && CoversTables(env, b.j, d.event)
    ensures BookInv(AfterDelivery(b, d, env))
  {
    hide BookInv;
    if ReachesOpening(b.j, d) {
      FirstKeeps(b, d, env);
    } else if !RunConflict(b.j, d) {
      AgainKeeps(b, d, env);
    }
  }
}
