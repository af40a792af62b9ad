/** What `save` may discard, and what it never discards. */
module IncidentPruning {
  import opened HealthEvents
  import opened IncidentJournal
  import opened IncidentInvariant

  // ---- pinning ---------------------------------------------------------------------------------

  predicate OpenMarker(j: Journal, marker: Option<Marker>) {
    marker.Some? && marker.value in j.incidents && !j.incidents[marker.value].closed
  }

  /** The marker of an item, or else of the event it names. */
  function EffectiveMarker(j: Journal, eventId: Option<nat>, marker: Option<Marker>): Option<Marker> {
    if marker.Some? then marker
    else if eventId.Some? && eventId.value in j.events then j.events[eventId.value].marker else None
  }

  predicate Pinned(j: Journal, eventId: Option<nat>, marker: Option<Marker>, owed: bool) {
    var effective := EffectiveMarker(j, eventId, marker);
    || owed
    || OpenMarker(j, effective)
    || (eventId.Some? && eventId.value in j.events && j.events[eventId.value].payload.kind == Recovery
        && effective.None?)
  }

  predicate PinnedRun(j: Journal, r: RunRecord) {
    Pinned(j, r.eventId, r.marker, r.unresolved.Some?)
  }

  predicate PinnedEvent(j: Journal, r: EventRecord) {
    Pinned(j, Some(r.payload.eventId), r.marker, r.unresolved.Some?)
  }

  predicate PinnedInput(j: Journal, r: InputRecord) {
    Pinned(j, r.eventId, r.marker, r.unresolved.Some? || r.pending)
  }

  // ---- one table -------------------------------------------------------------------------------

  /** `u` is `t` without some of its unpinned keys. */
  predicate Thinned<T(==)>(t: map<nat, T>, u: map<nat, T>, pinned: set<nat>) {
    && u.Keys <= t.Keys
    && (forall k | k in u :: u[k] == t[k])
    && (forall k | k in t && k in pinned :: k in u)
  }

  /** Nothing is removed below the limit, no more than the excess above it, and the oldest first. */
  ghost predicate Economical<T>(t: map<nat, T>, u: map<nat, T>, pinned: set<nat>, at: T -> int) {
    && (|t| <= JOURNAL_LIMIT ==> u == t)
    && (|t| > JOURNAL_LIMIT ==> |u| == JOURNAL_LIMIT || (|u| > JOURNAL_LIMIT && u.Keys <= pinned))
    && (forall r, k | r in t && r !in u && k in u && k in t && k !in pinned :: at(t[r]) <= at(t[k]))
  }

  function PinnedRuns(j: Journal): set<nat> {
    set k | k in j.runs && PinnedRun(j, j.runs[k])
  }

  function PinnedEvents(j: Journal): set<nat> {
    set k | k in j.events && PinnedEvent(j, j.events[k])
  }

  function PinnedInputs(j: Journal): set<nat> {
    set k | k in j.inputs && PinnedInput(j, j.inputs[k])
  }

  // ---- the journal -----------------------------------------------------------------------------

  /** Only closed incidents are dropped. */
  predicate DropsClosed(a: map<Marker, Incident>, b: map<Marker, Incident>) {
    && b.Keys <= a.Keys
    && (forall m | m in b :: b[m] == a[m])
    && (forall m | m in a && !a[m].closed :: m in b)
  }

  /** What `save` may leave of a journal in memory, even when it then refuses to write it. */
  predicate Prunes(j: Journal, k: Journal) {
    && Thinned(j.runs, k.runs, PinnedRuns(j))
    && Thinned(j.events, k.events, PinnedEvents(j))
    && Thinned(j.inputs, k.inputs, PinnedInputs(j.(events := k.events)))
    && DropsClosed(j.incidents, k.incidents)
    && k.open == j.open && k.discovery == j.discovery
  }

  function RunAge(r: RunRecord): int { r.at }

  function EventAge(r: EventRecord): int { r.at }

  function InputAge(r: InputRecord): int { r.at }

  function Closed(incidents: map<Marker, Incident>): set<Marker> {
    set m | m in incidents && incidents[m].closed
  }

  /** An incident without a last event sorts first. */
  predicate NotLater(a: Option<int>, b: Option<int>) {
    a.None? || (b.Some? && a.value <= b.value)
  }

  /** All but the latest closed incidents are dropped, the oldest first. */
  ghost predicate KeepsLatest(a: map<Marker, Incident>, b: map<Marker, Incident>) {
    && DropsClosed(a, b)
    && |Closed(b)| == (if |Closed(a)| <= CLOSED_INCIDENT_LIMIT then |Closed(a)| else CLOSED_INCIDENT_LIMIT)
    && (forall m, n | m in a && m !in b && n in Closed(b) :: NotLater(a[m].lastEventAt, b[n].lastEventAt))
  }

  /** What `save` leaves when it goes through: the oldest unpinned entries beyond each limit are gone, and
      so are the oldest closed incidents beyond theirs. */
  ghost predicate SavedAs(j: Journal, k: Journal) {
    && Prunes(j, k) && WithinLimits(k)
    && Economical(j.runs, k.runs, PinnedRuns(j), RunAge)
    && Economical(j.events, k.events, PinnedEvents(j), EventAge)
    && Economical(j.inputs, k.inputs, PinnedInputs(j.(events := k.events)), InputAge)
    && KeepsLatest(j.incidents, k.incidents)
  }

  predicate WithinLimits(j: Journal) {
    && |j.runs| <= JOURNAL_LIMIT && |j.events| <= JOURNAL_LIMIT && |j.inputs| <= JOURNAL_LIMIT
    && |j.incidents| <= MAX_INCIDENTS
  }

  // ---- obligations -----------------------------------------------------------------------------

  datatype Obligation = OfRun(id: nat, reason: Reason) | OfInput(id: nat, pending: Option<Reason>)
                      | OfEvent(id: nat, reason: Reason) | OfRecovery(id: nat)

  function Obligations(j: Journal): set<Obligation> {
    (set k | k in j.runs && j.runs[k].unresolved.Some? :: OfRun(k, j.runs[k].unresolved.value))
    + (set k | k in j.inputs && (j.inputs[k].unresolved.Some? || j.inputs[k].pending) ::
       OfInput(k, j.inputs[k].unresolved))
    + (set k | k in j.events && j.events[k].unresolved.Some? :: OfEvent(k, j.events[k].unresolved.value))
    + (set k | k in j.events && j.events[k].payload.kind == Recovery && j.events[k].marker.None? :: OfRecovery(k))
  }

  /** An event record sits under its own ID. */
  ghost predicate KeyedByEvent(j: Journal) {
    forall id | id in j.events :: j.events[id].payload.eventId == id
  }

  lemma KeyedBook(b: Book)
    requires BookInv(b)
    ensures KeyedByEvent(b.j)
  {
    forall id | id in b.j.events
      ensures b.j.events[id].payload.eventId == id
    {
      assert EventOk(b.j, b.delivered, id);
    }
  }

  lemma ObligationKept(j: Journal, k: Journal, o: Obligation)
    requires Prunes(j, k) && KeyedByEvent(j)
    ensures o in Obligations(j) <==> o in Obligations(k)
  {
    match o {
      case OfRun(id, _) =>
        if id in j.runs && j.runs[id].unresolved.Some? {
          assert id in PinnedRuns(j);
        }
      case OfInput(id, _) =>
        if id in j.inputs && (j.inputs[id].unresolved.Some? || j.inputs[id].pending) {
          assert id in PinnedInputs(j.(events := k.events));
        }
      case OfEvent(id, _) =>
        if id in j.events && j.events[id].unresolved.Some? {
          assert id in PinnedEvents(j);
        }
      case OfRecovery(id) =>
        if id in j.events && j.events[id].payload.kind == Recovery && j.events[id].marker.None? {
          assert PinnedEvent(j, j.events[id]);
          assert id in PinnedEvents(j);
        }
    }
  }

  /** Pruning settles nothing: the obligations before and after are the same. */
  lemma PruningKeepsObligations(j: Journal, k: Journal)
    requires Prunes(j, k) && KeyedByEvent(j)
    ensures Obligations(k) == Obligations(j)
  {
    forall o: Obligation
      ensures o in Obligations(j) <==> o in Obligations(k)
    {
      ObligationKept(j, k, o);
    }
  }

  // ---- the invariant ---------------------------------------------------------------------------

  /** Events of an open incident and unmatched recoveries survive. */
  lemma PinnedSurvives(j: Journal, k: Journal, id: nat)
    requires Prunes(j, k) && KeyedByEvent(j) && id in j.events
    requires OpenMarker(j, j.events[id].marker) || (j.events[id].marker.None? && j.events[id].payload.kind == Recovery)
    ensures id in k.events && k.events[id] == j.events[id]
  {
    assert PinnedEvent(j, j.events[id]);
    assert id in PinnedEvents(j);
  }

  lemma PrunedPayloads(j: Journal, k: Journal, m: Marker)
    requires Prunes(j, k) && KeyedByEvent(j) && OpenMarker(j, Some(m))
    ensures Payloads(k, m) == Payloads(j, m)
  {
    forall id | id in j.events && j.events[id].marker == Some(m)
      ensures id in k.events && k.events[id] == j.events[id]
    {
      PinnedSurvives(j, k, id);
    }
    forall e | e in Payloads(j, m)
      ensures e in Payloads(k, m)
    {
      var id :| id in j.events && j.events[id].marker == Some(m) && j.events[id].payload == e;
      assert k.events[id].payload == e;
    }
  }

  lemma PrunedStructure(j: Journal, k: Journal, delivered: set<Event>)
    requires Structural(j, delivered) && Prunes(j, k)
    ensures Structural(k, delivered)
  {
    forall m | m in k.incidents
      ensures IncidentOk(k, delivered, m)
    {
      assert IncidentOk(j, delivered, m);
    }
    forall g | g in k.open
      ensures OpenOk(k, g)
    {
      assert OpenOk(j, g);
    }
    forall id | id in k.events
      ensures EventOk(k, delivered, id)
    {
      assert EventOk(j, delivered, id);
    }
  }

  lemma PrunedExact(b: Book, k: Journal)
    requires AllExact(b) && Prunes(b.j, k) && KeyedByEvent(b.j)
    ensures AllExact(b.(j := k))
  {
    forall m | m in k.incidents
      ensures ExactAt(b.(j := k), m)
    {
      assert ExactAt(b, m);
      if !b.j.incidents[m].closed {
        PrunedPayloads(b.j, k, m);
      }
    }
  }

  lemma PrunedKept(b: Book, k: Journal)
    requires Structural(b.j, b.delivered) && AllKept(b) && Prunes(b.j, k) && KeyedByEvent(b.j) && SenderLaw(b.delivered)
    ensures AllKept(b.(j := k))
  {
    forall n | n !in b.settled
      ensures Kept(b.(j := k), n)
    {
      PrunedEpisodeKept(b, k, n);
    }
    StainsStay(b, b.(j := k));
  }

  lemma PrunedEpisodeKept(b: Book, k: Journal, n: nat)
    requires Structural(b.j, b.delivered) && Kept(b, n) && Prunes(b.j, k) && KeyedByEvent(b.j) && SenderLaw(b.delivered)
    ensures Kept(b.(j := k), n)
  {
    hide PinnedRuns, PinnedEvents, PinnedInputs;
    forall e | e in b.delivered && e.episodeId == n
      ensures e.eventId in k.events
    {
      assert EventOk(b.j, b.delivered, e.eventId);
      assert Coherent(b.j.events[e.eventId].payload, e);
      assert MarkedOpen(b.j, b.j.events[e.eventId]);
      if e.group in b.j.open {
        assert OpenOk(b.j, e.group);
      }
      PinnedSurvives(b.j, k, e.eventId);
    }
    forall id | id in k.events && k.events[id].payload.episodeId == n
      ensures MarkedOpen(k, k.events[id])
    {
      var r := b.j.events[id];
      assert MarkedOpen(b.j, r);
      if r.marker.Some? {
        assert OpenOk(b.j, r.payload.group);
      }
    }
  }

  lemma PrunedUnmatched(j: Journal, k: Journal)
    requires AllUnmatched(j) && Prunes(j, k)
    ensures AllUnmatched(k)
  {
    forall id | id in k.events
      ensures Unmatched(k, k.events[id])
    {
      assert Unmatched(j, j.events[id]);
    }
  }

  /** Pruning keeps everything deliveries keep. */
  lemma PruningKeeps(b: Book, k: Journal)
    requires BookInv(b) && Prunes(b.j, k)
    ensures BookInv(b.(j := k))
  {
    KeyedBook(b);
    assert AllSourced(k, b.delivered) by {
      SameEpisodesSourced(b.j, k, b.delivered, b.delivered);
    }
    hide Structural, AllSourced, AllExact, AllKept, AllUnmatched, Prunes;
    PrunedStructure(b.j, k, b.delivered);
    PrunedExact(b, k);
    PrunedKept(b, k);
    PrunedUnmatched(b.j, k);
  }
}
