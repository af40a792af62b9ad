/** What every delivery keeps: one open incident per group, exact accounting, no unmatched recovery
    of a listed episode, and, while no incident listing an episode was closed, nothing delivered of it is
    forgotten. */
module IncidentInvariant {
  import opened HealthEvents
  import opened IncidentJournal
  import opened IncidentEpisodes

  /** The journal and what it does not keep: the events delivered so far, the episodes some incident
      listed when it was closed, how often an incident of each marker was discarded, and the markers
      founded while events of an earlier incident of the same marker were still stored. */
  datatype Book = Book(j: Journal, delivered: set<Event>, settled: set<nat>, dropped: multiset<Marker>,
                       stained: set<Marker>)

  const EMPTY_BOOK := Book(EMPTY_JOURNAL, {}, {}, multiset{}, {})

  /** The distinct stored events carrying a marker. */
  ghost function Payloads(j: Journal, m: Marker): set<Event> {
    set id | id in j.events && j.events[id].marker == Some(m) :: j.events[id].payload
  }

  // ---- structure -------------------------------------------------------------------------------

  /** An incident sits under its own marker, lists the episode of the event that founded it, and is
      the open incident of its group unless closed. */
  ghost predicate IncidentOk(j: Journal, delivered: set<Event>, m: Marker)
    requires m in j.incidents
  {
    var inc := j.incidents[m];
    && m.group == inc.group
    && (exists e :: e in delivered && e.eventId == m.eventId && e.group == m.group && e.episodeId in inc.episodes)
    && (!inc.closed ==> inc.group in j.open && j.open[inc.group] == m)
  }

  predicate OpenOk(j: Journal, g: string)
    requires g in j.open
  {
    j.open[g] in j.incidents && j.incidents[j.open[g]].group == g && !j.incidents[j.open[g]].closed
  }

  ghost predicate EventOk(j: Journal, delivered: set<Event>, id: nat)
    requires id in j.events
  {
    var r := j.events[id];
    && r.payload.eventId == id
    && r.payload in delivered
    && (r.marker.Some? ==> r.marker.value.group == r.payload.group)
    && (r.marker.None? ==> r.payload.kind == Recovery)
  }

  /** A failure or escalation of every listed episode was delivered, with the source and signal listed. */
  ghost predicate Sourced(inc: Incident, delivered: set<Event>) {
    forall k | k in inc.episodes :: exists e :: Sources(e, inc.episodes[k], delivered, k)
  }

  ghost predicate Sources(e: Event, ep: Episode, delivered: set<Event>, k: nat) {
    e in delivered && e.episodeId == k && e.kind != Recovery && SameSignal(ep, e)
  }

  lemma SourcedLater(inc: Incident, later: Incident, delivered: set<Event>, more: set<Event>)
    requires Sourced(inc, delivered) && delivered <= more && later.episodes == inc.episodes
    ensures Sourced(later, more)
  {
    forall k | k in later.episodes
      ensures exists e :: Sources(e, later.episodes[k], more, k)
    {
      var e :| Sources(e, inc.episodes[k], delivered, k);
      assert Sources(e, later.episodes[k], more, k);
    }
  }

  lemma SourcedJoin(inc: Incident, delivered: set<Event>, e: Event)
    requires Sourced(inc, delivered)
    ensures Sourced(Joined(inc, e), delivered + {e})
  {
    var after := Joined(inc, e);
    forall k | k in after.episodes
      ensures exists f :: Sources(f, after.episodes[k], delivered + {e}, k)
    {
      if k in inc.episodes {
        var f :| Sources(f, inc.episodes[k], delivered, k);
        assert Sources(f, after.episodes[k], delivered + {e}, k);
      } else {
        assert Sources(e, after.episodes[k], delivered + {e}, k);
      }
    }
  }

  ghost predicate AllSourced(j: Journal, delivered: set<Event>) {
    forall m | m in j.incidents :: Sourced(j.incidents[m], delivered)
  }

  ghost predicate Structural(j: Journal, delivered: set<Event>) {
    && (forall m | m in j.incidents :: IncidentOk(j, delivered, m))
    && (forall g | g in j.open :: OpenOk(j, g))
    && (forall id | id in j.events :: EventOk(j, delivered, id))
  }

  /** A recovery still unmatched has no episode in the open incident of its group. */
  predicate Unmatched(j: Journal, r: EventRecord) {
    r.marker.None? && r.payload.group in j.open && j.open[r.payload.group] in j.incidents ==>
      r.payload.episodeId !in j.incidents[j.open[r.payload.group]].episodes
  }

  ghost predicate AllUnmatched(j: Journal) {
    forall id | id in j.events :: Unmatched(j, j.events[id])
  }

  // ---- exactness -------------------------------------------------------------------------------

  ghost predicate Dated(last: Option<int>, s: set<Event>) {
    match last
    case None => s == {}
    case Some(t) => (forall e | e in s :: e.occurredAt <= t) && (exists e :: e in s && e.occurredAt == t)
  }

  /** The incident's books are those of exactly these events. */
  ghost predicate Exact(inc: Incident, s: set<Event>) {
    inc.eventCount == |s| && Tells(inc.episodes, s) && Dated(inc.lastEventAt, s)
  }

  /** The incident counts fewer events than carry its marker; the episodes not settled it tells all the same. */
  ghost predicate Undercounts(inc: Incident, s: set<Event>, settled: set<nat>) {
    inc.eventCount < |s| && TellsBut(inc.episodes, s, settled)
  }

  /** An open incident is exact, unless its marker is stained, and then it undercounts. */
  ghost predicate ExactAt(b: Book, m: Marker)
    requires m in b.j.incidents
  {
    !b.j.incidents[m].closed ==>
      if m in b.stained then Undercounts(b.j.incidents[m], Payloads(b.j, m), b.settled)
      else Exact(b.j.incidents[m], Payloads(b.j, m))
  }

  ghost predicate AllExact(b: Book) {
    forall m | m in b.j.incidents :: ExactAt(b, m)
  }

  // ---- episodes not settled --------------------------------------------------------------------

  /** A stored event, if marked, carries the open incident of its group, and that lists its episode. */
  predicate MarkedOpen(j: Journal, r: EventRecord) {
    r.marker.Some? ==>
      && r.payload.group in j.open && r.marker == Some(j.open[r.payload.group])
      && r.marker.value in j.incidents && r.payload.episodeId in j.incidents[r.marker.value].episodes
  }

  /** While no incident listing the episode was closed, every delivery of it is stored and, if marked,
      carried by the open incident. */
  ghost predicate Kept(b: Book, k: nat) {
    && (forall e | e in b.delivered && e.episodeId == k :: e.eventId in b.j.events)
    && (forall id | id in b.j.events && b.j.events[id].payload.episodeId == k :: MarkedOpen(b.j, b.j.events[id]))
    && (forall m | m in b.j.incidents && k in b.j.incidents[m].episodes :: !b.j.incidents[m].closed)
  }

  /** A stain is what is left of a closed incident of the group. */
  ghost predicate StainSettled(b: Book, m: Marker) {
    exists e :: e in b.delivered && e.group == m.group && e.episodeId in b.settled
  }

  ghost predicate AllKept(b: Book) {
    (forall k | k !in b.settled :: Kept(b, k)) && (forall m | m in b.stained :: StainSettled(b, m))
  }

  lemma StainsStay(b: Book, c: Book)
    requires forall m | m in b.stained :: StainSettled(b, m)
    requires b.delivered <= c.delivered && b.settled <= c.settled
    ensures forall m | m in b.stained :: StainSettled(c, m)
  {
    forall m | m in b.stained
      ensures StainSettled(c, m)
    {
      var e :| e in b.delivered && e.group == m.group && e.episodeId in b.settled;
      assert e in c.delivered;
    }
  }

  /** Everything except the unmatched recoveries, which one delivery settles last. */
  ghost predicate Core(b: Book) {
    SenderLaw(b.delivered) && Structural(b.j, b.delivered) && AllSourced(b.j, b.delivered) && AllExact(b) && AllKept(b)
  }

  ghost predicate BookInv(b: Book) {
    Core(b) && AllUnmatched(b.j)
  }

  lemma DroppedIsOutside(b: Book, dropped: multiset<Marker>)
    requires BookInv(b)
    ensures BookInv(b.(dropped := dropped))
  {
    var c := b.(dropped := dropped);
    forall m | m in c.j.incidents
      ensures ExactAt(c, m)
    {
      assert ExactAt(b, m);
    }
    forall k | k !in c.settled
      ensures Kept(c, k)
    {
      assert Kept(b, k);
    }
    StainsStay(b, c);
  }

  lemma EmptyBookInv()
    ensures BookInv(EMPTY_BOOK)
  {
  }

  // ---- joining one event to one incident -------------------------------------------------------

  lemma LaterDates(last: Option<int>, s: set<Event>, e: Event)
    requires Dated(last, s)
    ensures Dated(Later(last, e.occurredAt), s + {e})
  {
    assert e in s + {e};
    if last.Some? && last.value >= e.occurredAt {
      var x :| x in s && x.occurredAt == last.value;
      assert x in s + {e};
    }
  }

  lemma JoinedExact(inc: Incident, s: set<Event>, e: Event)
    requires Exact(inc, s) && e !in s && (forall f | f in s :: Coherent(f, e))
    requires e.kind == Recovery ==> e.episodeId in inc.episodes
    ensures Exact(Joined(inc, e), s + {e})
  {
    MergeTells(inc.episodes, s, e);
    hide Tells, Merge, Coherent;
    LaterDates(inc.lastEventAt, s, e);
  }

  /** One record changes in the event table; the payload sets follow. */
  lemma PayloadsAfter(j: Journal, k: Journal, id: nat, r: EventRecord, m: Marker)
    requires k.events == j.events[id := r]
    requires id in j.events ==> j.events[id].marker != Some(m)
    ensures Payloads(k, m) == Payloads(j, m) + if r.marker == Some(m) then {r.payload} else {}
  {
    forall e | e in Payloads(j, m)
      ensures e in Payloads(k, m)
    {
      var i :| i in j.events && j.events[i].marker == Some(m) && j.events[i].payload == e;
      assert k.events[i] == j.events[i];
    }
    if r.marker == Some(m) {
      assert k.events[id].payload in Payloads(k, m);
    }
    forall e | e in Payloads(k, m)
      ensures e in Payloads(j, m) || (r.marker == Some(m) && e == r.payload)
    {
      var i :| i in k.events && k.events[i].marker == Some(m) && k.events[i].payload == e;
      if i != id {
        assert j.events[i] == k.events[i];
      }
    }
  }

  lemma PayloadsSame(j: Journal, k: Journal, m: Marker)
    requires k.events == j.events
    ensures Payloads(k, m) == Payloads(j, m)
  {
  }

  /** A payload under a marker is delivered and stored under its own ID. */
  lemma PayloadIsStored(j: Journal, delivered: set<Event>, m: Marker, e: Event)
    requires Structural(j, delivered) && e in Payloads(j, m)
    ensures e in delivered && e.eventId in j.events && j.events[e.eventId].marker == Some(m)
            && j.events[e.eventId].payload == e
  {
    var id :| id in j.events && j.events[id].marker == Some(m) && j.events[id].payload == e;
    assert EventOk(j, delivered, id);
  }

  lemma PayloadsCoherent(j: Journal, delivered: set<Event>, m: Marker, e: Event)
    requires Structural(j, delivered) && SenderLaw(delivered + {e})
    ensures forall f | f in Payloads(j, m) :: Coherent(f, e)
  {
    forall f | f in Payloads(j, m)
      ensures Coherent(f, e)
    {
      PayloadIsStored(j, delivered, m, f);
      assert f in delivered + {e} && e in delivered + {e};
    }
  }

  lemma NewPayload(j: Journal, delivered: set<Event>, m: Marker, e: Event)
    requires Structural(j, delivered)
    requires e.eventId !in j.events || j.events[e.eventId].marker != Some(m)
    ensures e !in Payloads(j, m)
  {
    if e in Payloads(j, m) {
      PayloadIsStored(j, delivered, m, e);
    }
  }

  /** `k` is `j` with one event record written and one incident joined by its payload. */
  ghost predicate JoinsOne(j: Journal, k: Journal, m: Marker, id: nat, r: EventRecord) {
    && m in j.incidents
    && r.payload.eventId == id && r.marker == Some(m) && m.group == r.payload.group
    && (id in j.events ==> j.events[id].marker.None?)
    && k.events == j.events[id := r]
    && k.incidents == j.incidents[m := Joined(j.incidents[m], r.payload)]
    && k.open == j.open
  }

  lemma JoinKeepsStructure(j: Journal, k: Journal, delivered: set<Event>, m: Marker, id: nat, r: EventRecord)
    requires Structural(j, delivered) && JoinsOne(j, k, m, id, r)
    ensures Structural(k, delivered + {r.payload})
  {
    var d := delivered + {r.payload};
    forall n | n in k.incidents
      ensures IncidentOk(k, d, n)
    {
      assert IncidentOk(j, delivered, n);
      var e :| e in delivered && e.eventId == n.eventId && e.group == n.group && e.episodeId in j.incidents[n].episodes;
      assert e in d && e.episodeId in k.incidents[n].episodes;
    }
    forall g | g in k.open
      ensures OpenOk(k, g)
    {
      assert OpenOk(j, g);
    }
    forall i | i in k.events
      ensures EventOk(k, d, i)
    {
      if i != id {
        assert EventOk(j, delivered, i);
      }
    }
  }

  lemma JoinKeepsSourced(j: Journal, k: Journal, delivered: set<Event>, m: Marker, id: nat, r: EventRecord)
    requires AllSourced(j, delivered) && JoinsOne(j, k, m, id, r)
    ensures AllSourced(k, delivered + {r.payload})
  {
    forall n | n in k.incidents
      ensures Sourced(k.incidents[n], delivered + {r.payload})
    {
      assert Sourced(j.incidents[n], delivered);
      if n == m {
        SourcedJoin(j.incidents[m], delivered, r.payload);
      } else {
        SourcedLater(j.incidents[n], k.incidents[n], delivered, delivered + {r.payload});
      }
    }
  }

  /** Incidents that keep their episodes keep their sources. */
  lemma SameEpisodesSourced(j: Journal, k: Journal, delivered: set<Event>, more: set<Event>)
    requires AllSourced(j, delivered) && delivered <= more
    requires forall m | m in k.incidents :: m in j.incidents && k.incidents[m].episodes == j.incidents[m].episodes
    ensures AllSourced(k, more)
  {
    forall m | m in k.incidents
      ensures Sourced(k.incidents[m], more)
    {
      assert Sourced(j.incidents[m], delivered);
      SourcedLater(j.incidents[m], k.incidents[m], delivered, more);
    }
  }

  lemma JoinIsExactAt(b: Book, k: Journal, m: Marker, id: nat, r: EventRecord)
    requires Structural(b.j, b.delivered) && SenderLaw(b.delivered + {r.payload}) && AllExact(b)
    requires JoinsOne(b.j, k, m, id, r)
    requires r.payload.kind == Recovery ==> r.payload.episodeId in b.j.incidents[m].episodes
    ensures ExactAt(b.(j := k), m)
  {
    assert ExactAt(b, m);
    PayloadsAfter(b.j, k, id, r, m);
    PayloadsCoherent(b.j, b.delivered, m, r.payload);
    NewPayload(b.j, b.delivered, m, r.payload);
    hide Payloads, Structural, Tells, Dated, Coherent, SenderLaw;
    if !k.incidents[m].closed {
      if m in b.stained {
        MergeTellsBut(b.j.incidents[m].episodes, Payloads(b.j, m), b.settled, r.payload);
      } else {
        JoinedExact(b.j.incidents[m], Payloads(b.j, m), r.payload);
      }
    }
  }

  lemma JoinKeepsExact(b: Book, k: Journal, m: Marker, id: nat, r: EventRecord)
    requires Structural(b.j, b.delivered) && SenderLaw(b.delivered + {r.payload}) && AllExact(b)
    requires JoinsOne(b.j, k, m, id, r)
    requires r.payload.kind == Recovery ==> r.payload.episodeId in b.j.incidents[m].episodes
    ensures AllExact(b.(j := k))
  {
    JoinIsExactAt(b, k, m, id, r);
    hide Structural, Payloads, Exact, Undercounts, SenderLaw;
    forall n | n in k.incidents
      ensures ExactAt(b.(j := k), n)
    {
      if n != m {
        assert ExactAt(b, n);
        PayloadsAfter(b.j, k, id, r, n);
        assert Payloads(b.j, n) + {} == Payloads(b.j, n);
      }
    }
  }

  lemma JoinKeepsKept(b: Book, k: Journal, m: Marker, id: nat, r: EventRecord)
    requires Structural(b.j, b.delivered) && AllKept(b)
    requires JoinsOne(b.j, k, m, id, r) && m.group in b.j.open && b.j.open[m.group] == m
    requires r.payload.kind == Recovery ==> r.payload.episodeId in b.j.incidents[m].episodes
    ensures AllKept(b.(j := k, delivered := b.delivered + {r.payload}))
  {
    var c := b.(j := k, delivered := b.delivered + {r.payload});
    assert OpenOk(b.j, m.group);
    forall n | n !in b.settled
      ensures Kept(c, n)
    {
      assert Kept(b, n);
      forall i | i in k.events && k.events[i].payload.episodeId == n
        ensures MarkedOpen(k, k.events[i])
      {
        if i != id {
          assert MarkedOpen(b.j, b.j.events[i]);
        }
      }
    }
    StainsStay(b, c);
  }

  lemma JoinKeepsCore(b: Book, k: Journal, m: Marker, id: nat, r: EventRecord)
    requires Core(b) && SenderLaw(b.delivered + {r.payload})
    requires JoinsOne(b.j, k, m, id, r) && m.group in b.j.open && b.j.open[m.group] == m
    requires r.payload.kind == Recovery ==> r.payload.episodeId in b.j.incidents[m].episodes
    ensures Core(b.(j := k, delivered := b.delivered + {r.payload}))
  {
    hide Structural, AllSourced, AllExact, AllKept, JoinsOne;
    JoinKeepsStructure(b.j, k, b.delivered, m, id, r);
    JoinKeepsSourced(b.j, k, b.delivered, m, id, r);
    JoinKeepsExact(b, k, m, id, r);
    JoinKeepsKept(b, k, m, id, r);
    ExactIgnoresDelivered(b.(j := k), b.delivered + {r.payload});
  }

  lemma ExactIgnoresDelivered(b: Book, more: set<Event>)
    requires AllExact(b)
    ensures AllExact(b.(delivered := more))
  {
    forall m | m in b.j.incidents
      ensures ExactAt(b.(delivered := more), m)
    {
      assert ExactAt(b, m);
    }
  }
}
