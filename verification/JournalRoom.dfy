/** When a journal has room: how much one delivery adds, and why none is refused while there is room for it. */
module JournalRoom {
  import opened HealthEvents
  import opened IncidentJournal
  import opened IncidentInvariant
  import opened IncidentDelivery
  import opened IncidentPruning

  /** `n` more deliveries fit, whatever they are. */
  predicate Roomy(j: Journal, n: nat) {
    && |j.runs| + n <= JOURNAL_LIMIT && |j.events| + n <= JOURNAL_LIMIT && |j.inputs| <= JOURNAL_LIMIT
    && |j.incidents| + n <= MAX_INCIDENTS && n <= MAX_EPISODES
    && (forall m | m in j.incidents && !j.incidents[m].closed :: |j.incidents[m].episodes| + n <= MAX_EPISODES)
  }

  /** Nothing was imported: events came by their own runs, each through its trigger. */
  ghost predicate Plain(j: Journal, contents: nat -> Option<Event>, channel: nat -> nat) {
    && (forall id | id in j.events ::
          j.events[id].origin == NativePayload && j.events[id].native.trigger == channel(id))
    && (forall id | id in j.runs && j.runs[id].eventId.Some? ::
          contents(id).Some? && j.runs[id].eventId == Some(contents(id).value.eventId))
  }

  ghost predicate Fit(j: Journal, n: nat, contents: nat -> Option<Event>, channel: nat -> nat) {
    Roomy(j, n) && Plain(j, contents, channel)
  }

  /** The delivery of a run's own payload. */
  ghost predicate Native(d: Delivery, contents: nat -> Option<Event>, channel: nat -> nat) {
    && d.origin == NativePayload && d.bytes.None? && d.run.trigger == channel(d.event.eventId)
    && d.run.id.Some? && contents(d.run.id.value) == Some(d.event)
  }

  // ---- what a delivery adds --------------------------------------------------------------------

  predicate RunAdded(j: Journal, k: Journal, d: Delivery, id: nat)
    requires id in k.runs
  {
    || (id in j.runs && k.runs[id].eventId == j.runs[id].eventId)
    || (d.run.id == Some(id) && k.runs[id].eventId == Some(d.event.eventId))
  }

  predicate EventAdded(j: Journal, k: Journal, d: Delivery, id: nat)
    requires id in k.events
  {
    || (id in j.events && k.events[id].origin == j.events[id].origin && k.events[id].native == j.events[id].native)
    || (id == d.event.eventId && k.events[id].origin == d.origin && k.events[id].native == d.run)
  }

  /** An open incident was open before, or is the one founded, and lists at most this episode more. */
  predicate IncidentAdded(j: Journal, k: Journal, e: Event, m: Marker)
    requires m in k.incidents
  {
    && (m in j.incidents || m == Marker(e.group, e.eventId))
    && (!k.incidents[m].closed ==>
          && (m in j.incidents ==> !j.incidents[m].closed)
          && k.incidents[m].episodes.Keys
             <= (if m in j.incidents then j.incidents[m].episodes.Keys else {}) + {e.episodeId})
  }

  ghost predicate Adds(j: Journal, k: Journal, d: Delivery) {
    && k.inputs == j.inputs && j.incidents.Keys <= k.incidents.Keys
    && (forall id | id in k.runs :: RunAdded(j, k, d, id))
    && (forall id | id in k.events :: EventAdded(j, k, d, id))
    && (forall m | m in k.incidents :: IncidentAdded(j, k, d.event, m))
  }

  lemma AddsNothing(j: Journal, d: Delivery)
    ensures Adds(j, j, d)
  {
  }

  lemma AddsTrans(i: Journal, j: Journal, k: Journal, d: Delivery)
    requires Adds(i, j, d) && Adds(j, k, d)
    ensures Adds(i, k, d)
  {
    forall id | id in k.runs
      ensures RunAdded(i, k, d, id)
    {
      assert RunAdded(j, k, d, id);
      assert id in j.runs ==> RunAdded(i, j, d, id);
    }
    forall id | id in k.events
      ensures EventAdded(i, k, d, id)
    {
      assert EventAdded(j, k, d, id);
      assert id in j.events ==> EventAdded(i, j, d, id);
    }
    forall m | m in k.incidents
      ensures IncidentAdded(i, k, d.event, m)
    {
      assert IncidentAdded(j, k, d.event, m);
      assert m in j.incidents ==> IncidentAdded(i, j, d.event, m);
    }
  }

  lemma AdoptAdds(j: Journal, m: Marker, d: Delivery, id: nat)
    requires m in j.incidents
    ensures Adds(j, Adopt(j, m, d.event, id), d)
  {
  }

  lemma {:induction false} AdoptAllAdds(j: Journal, m: Marker, d: Delivery, ids: seq<nat>)
    requires m in j.incidents
    ensures Adds(j, AdoptAll(j, m, d.event, ids), d)
  {
    hide Adds, Adopt;
    if ids == [] {
      AddsNothing(j, d);
    } else {
      var before := AdoptAll(j, m, d.event, ids[..|ids| - 1]);
      AdoptAllAdds(j, m, d, ids[..|ids| - 1]);
      AdoptAdds(before, m, d, ids[|ids| - 1]);
      AddsTrans(j, before, AdoptAll(j, m, d.event, ids), d);
    }
  }

  lemma StoredAdds(j: Journal, d: Delivery, marker: Option<Marker>, outcome: Outcome, now: int)
    ensures Adds(j, Stored(j, d, marker, outcome, now), d)
  {
  }

  lemma AdmitAdds(j: Journal, m: Marker, d: Delivery, outcome: Outcome, now: int)
    requires m in j.incidents
    ensures Adds(j, Admit(j, m, d, outcome, now), d) && m in Admit(j, m, d, outcome, now).incidents
  {
  }

  lemma FoundAdds(j: Journal, d: Delivery)
    requires Marker(d.event.group, d.event.eventId) !in j.incidents
    ensures Adds(j, Found(j, d.event), d)
  {
  }

  lemma OpeningAdds(j: Journal, d: Delivery, env: Env)
    ensures Adds(j, OpenIncident(j, d.event.group, env).0, d)
  {
  }

  lemma JoiningAdds(j: Journal, m: Marker, d: Delivery, env: Env)
    requires m in j.incidents
    ensures Adds(j, AdoptAll(Admit(j, m, d, IncidentEvent, env.now), m, d.event, env.ids), d)
  {
    hide Adds, Admit, AdoptAll;
    var k := Admit(j, m, d, IncidentEvent, env.now);
    AdmitAdds(j, m, d, IncidentEvent, env.now);
    AdoptAllAdds(k, m, d, env.ids);
    AddsTrans(j, k, AdoptAll(k, m, d.event, env.ids), d);
  }

  lemma FoundingAdds(j: Journal, d: Delivery, env: Env)
    requires Marker(d.event.group, d.event.eventId) !in j.incidents
    ensures var m := Marker(d.event.group, d.event.eventId);
            Adds(j, AdoptAll(Admit(Found(j, d.event), m, d, IncidentEvent, env.now), m, d.event, env.ids), d)
  {
    hide Adds, Admit, AdoptAll;
    var m, k := Marker(d.event.group, d.event.eventId), Found(j, d.event);
    FoundAdds(j, d);
    JoiningAdds(k, m, d, env);
    AdmitAdds(k, m, d, IncidentEvent, env.now);
    AddsTrans(j, k, AdoptAll(Admit(k, m, d, IncidentEvent, env.now), m, d.event, env.ids), d);
  }

  lemma RecoveryAdds(j: Journal, marker: Option<Marker>, d: Delivery, now: int)
    ensures Adds(j, ProcessRecovery(j, marker, d, now).0, d)
  {
    hide Adds, Admit, Stored;
    StoredAdds(j, d, None, RecoveryUnmatched, now);
    if marker.Some? && marker.value in j.incidents {
      AdmitAdds(j, marker.value, d, StaleRecovery, now);
      AdmitAdds(j, marker.value, d, RecoveryRecorded, now);
    }
  }

  /** A repeated delivery of a native payload leaves the events alone and notes its run. */
  lemma AgainShape(j: Journal, d: Delivery, env: Env)
    requires d.event.eventId in j.events && d.origin == NativePayload
    ensures var k := ProcessAgain(j, d, env).0;
            && k.inputs == j.inputs && k.events == j.events
            && (forall id | id in k.runs :: RunAdded(j, k, d, id))
  {
    hide Attached, Enriched, UnverifiedReason;
  }

  lemma AgainAdds(j: Journal, d: Delivery, env: Env)
    requires d.event.eventId in j.events && d.origin == NativePayload
    ensures Adds(j, ProcessAgain(j, d, env).0, d)
  {
    hide ProcessAgain, RunAdded;
    AgainShape(j, d, env);
    AgainOnTables(j, d, env);
  }

  // ---- room for it -----------------------------------------------------------------------------

  lemma FewerOrOneMore<T>(a: set<T>, b: set<T>, x: T)
    requires a <= b + {x}
    ensures |a| <= |b| + 1
  {
    assert |b + {x}| <= |b| + 1;
    assert b + {x} == a + ((b + {x}) - a);
  }

  lemma AddsLeavesRoom(j: Journal, k: Journal, d: Delivery, n: nat)
    requires Adds(j, k, d) && Roomy(j, n + 1) && d.run.id.Some?
    ensures Roomy(k, n)
  {
    forall id | id in k.runs
      ensures id in j.runs.Keys + {d.run.id.value}
    {
      assert RunAdded(j, k, d, id);
    }
    FewerOrOneMore(k.runs.Keys, j.runs.Keys, d.run.id.value);
    forall id | id in k.events
      ensures id in j.events.Keys + {d.event.eventId}
    {
      assert EventAdded(j, k, d, id);
    }
    FewerOrOneMore(k.events.Keys, j.events.Keys, d.event.eventId);
    forall m | m in k.incidents
      ensures m in j.incidents.Keys + {Marker(d.event.group, d.event.eventId)}
      ensures !k.incidents[m].closed ==> |k.incidents[m].episodes| + n <= MAX_EPISODES
    {
      assert IncidentAdded(j, k, d.event, m);
      if !k.incidents[m].closed {
        var before := if m in j.incidents then j.incidents[m].episodes.Keys else {};
        FewerOrOneMore(k.incidents[m].episodes.Keys, before, d.event.episodeId);
        assert |k.incidents[m].episodes| == |k.incidents[m].episodes.Keys|;
      }
    }
    FewerOrOneMore(k.incidents.Keys, j.incidents.Keys, Marker(d.event.group, d.event.eventId));
    assert |k.runs| == |k.runs.Keys| && |k.events| == |k.events.Keys| && |k.incidents| == |k.incidents.Keys|;
  }

  lemma AddsStaysPlain(j: Journal, k: Journal, d: Delivery, contents: nat -> Option<Event>, channel: nat -> nat)
    requires Adds(j, k, d) && Plain(j, contents, channel) && Native(d, contents, channel)
    ensures Plain(k, contents, channel)
  {
    forall id | id in k.events
      ensures k.events[id].origin == NativePayload && k.events[id].native.trigger == channel(id)
    {
      assert EventAdded(j, k, d, id);
    }
    forall id | id in k.runs && k.runs[id].eventId.Some?
      ensures contents(id).Some? && k.runs[id].eventId == Some(contents(id).value.eventId)
    {
      assert RunAdded(j, k, d, id);
    }
  }

  // ---- no refusal ------------------------------------------------------------------------------

  predicate Standing(env: Env) {
    env.issueClosed.Some? && env.authorized
  }

  /** A fault is refused only for want of room. */
  lemma FaultAccepted(c: Book, marker: Option<Marker>, d: Delivery, env: Env)
    requires Core(c) && SenderLaw(c.delivered + {d.event}) && Answers(c.j, d.event.group, marker)
    requires |c.j.incidents| < MAX_INCIDENTS
    requires marker.Some? ==> |c.j.incidents[marker.value].episodes| < MAX_EPISODES
    ensures ProcessFault(c.j, marker, d, env).1.Done?
  {
    hide Core, AdoptAll, Admit;
    if marker.Some? && d.event.episodeId in c.j.incidents[marker.value].episodes {
      EpisodeKeepsSignal(c, marker.value, d.event);
    }
  }

  lemma AgainAccepted(b: Book, d: Delivery, env: Env, contents: nat -> Option<Event>, channel: nat -> nat)
    requires BookInv(b) && SenderLaw(b.delivered + {d.event}) && d.event.eventId in b.j.events
    requires Plain(b.j, contents, channel) && Native(d, contents, channel) && Standing(env)
    ensures ProcessAgain(b.j, d, env).1.Done?
  {
    var id := d.event.eventId;
    assert EventOk(b.j, b.delivered, id);
    assert b.j.events[id].payload in b.delivered + {d.event} && d.event in b.delivered + {d.event};
    assert Coherent(b.j.events[id].payload, d.event);
    hide BookInv, SenderLaw, Recorded;
  }

  /** A first delivery, from the books after opening. */
  lemma OpenedAccepted(c: Book, marker: Option<Marker>, d: Delivery, env: Env, n: nat)
    requires BookInv(c) && SenderLaw(c.delivered + {d.event}) && d.event.eventId !in c.j.events
    requires Answers(c.j, d.event.group, marker) && CoversTables(env, c.j, d.event) && Roomy(c.j, n + 1)
    requires FirstClosed(c.j, d.event, env.markers).None? && d.event.kind != Recovery
    ensures ProcessFault(c.j, marker, d, env).1.Done? && Adds(c.j, ProcessFault(c.j, marker, d, env).0, d)
  {
    hide BookInv, Adds, AdoptAll, Admit, Core, CoversTables, Found, FirstClosed;
    OpenIsNotClosed(c, d.event.group);
    MarkerIsNewOrAnswered(c, marker, d, env);
    CoreOf(c);
    FaultAccepted(c, marker, d, env);
    if marker.Some? {
      JoiningAdds(c.j, marker.value, d, env);
    } else {
      FoundingAdds(c.j, d, env);
    }
  }

  lemma CoreOf(b: Book)
    requires BookInv(b)
    ensures Core(b)
  {
  }

  lemma OpenIsNotClosed(b: Book, g: string)
    requires BookInv(b)
    ensures g in b.j.open ==> OpenOk(b.j, g)
  {
  }

  lemma MarkerIsNewOrAnswered(c: Book, marker: Option<Marker>, d: Delivery, env: Env)
    requires BookInv(c) && SenderLaw(c.delivered + {d.event}) && CoversTables(env, c.j, d.event)
    requires Answers(c.j, d.event.group, marker) && FirstClosed(c.j, d.event, env.markers).None?
    ensures marker.None? ==> Marker(d.event.group, d.event.eventId) !in c.j.incidents
  {
    BookParts(c);
    hide BookInv;
    if marker.None? {
      MarkerIsNew(c.j, c.delivered, d.event, env.markers);
    }
  }

  lemma OpeningIsRoomy(j: Journal, g: string, env: Env, n: nat)
    requires Roomy(j, n)
    ensures Roomy(OpenIncident(j, g, env).0, n)
    ensures Standing(env) ==> OpenIncident(j, g, env).1.Done?
  {
    var k := OpenIncident(j, g, env).0;
    OpeningSizes(j, g, env);
    OpeningOnTables(j, g, env);
    assert k.runs == j.runs && k.inputs == j.inputs;
    hide OpenIncident;
  }

  lemma OpeningSizes(j: Journal, g: string, env: Env)
    ensures |OpenIncident(j, g, env).0.incidents| == |j.incidents|
  {
    var k := OpenIncident(j, g, env).0;
    assert k.incidents.Keys == j.incidents.Keys;
    assert |k.incidents.Keys| == |k.incidents| && |j.incidents.Keys| == |j.incidents|;
  }

  /** What `process` does with a first delivery once the group's incident was opened. */
  lemma OpenedAdds(c: Book, marker: Option<Marker>, d: Delivery, env: Env, n: nat)
    requires BookInv(c) && SenderLaw(c.delivered + {d.event}) && d.event.eventId !in c.j.events
    requires Answers(c.j, d.event.group, marker) && CoversTables(env, c.j, d.event) && Roomy(c.j, n + 1)
    ensures var closed := FirstClosed(c.j, d.event, env.markers);
            if closed.Some? then Adds(c.j, Stored(c.j, d, closed, ClosedEpisodeObservation, env.now), d)
            else if d.event.kind == Recovery then
              var (k, r) := ProcessRecovery(c.j, marker, d, env.now); r.Done? && Adds(c.j, k, d)
            else var (k, r) := ProcessFault(c.j, marker, d, env); r.Done? && Adds(c.j, k, d)
  {
    hide BookInv, Adds, Stored, Admit, ProcessFault, FirstClosed, CoversTables, SenderLaw, Roomy;
    var closed := FirstClosed(c.j, d.event, env.markers);
    if closed.Some? {
      StoredAdds(c.j, d, closed, ClosedEpisodeObservation, env.now);
    } else if d.event.kind == Recovery {
      RecoveryAdds(c.j, marker, d, env.now);
    } else {
      OpenedAccepted(c, marker, d, env, n);
    }
  }

  lemma FirstAccepted(b: Book, d: Delivery, env: Env, n: nat)
    requires BookInv(b) && SenderLaw(b.delivered + {d.event}) && d.event.eventId !in b.j.events
    requires CoversTables(env, b.j, d.event) && Standing(env) && Roomy(b.j, n + 1)
    ensures ProcessFirst(b.j, d, env).1.Done? && Adds(b.j, ProcessFirst(b.j, d, env).0, d)
  {
    var g := d.event.group;
    hide BookInv, Adds, Stored, ProcessFault, ProcessRecovery, FirstClosed, SenderLaw, Roomy, OpenIncident, Structural;
    BookParts(b);
    OpeningIsRoomy(b.j, g, env, n + 1);
    OpeningKeeps(b, g, env);
    OpeningAnswers(b.j, b.delivered, g, env);
    OpeningAdds(b.j, d, env);
    var (k, r) := OpenIncident(b.j, g, env);
    var c := AfterOpening(b, g, env);
    OpenedAdds(c, r.value, d, env, n);
    AddsTrans(b.j, k, ProcessFirst(b.j, d, env).0, d);
  }

  /** While there is room, an answering tracker and standing authority, the delivery of a run's own payload
      is accepted, and takes no more than its share of the room. */
  lemma DeliveryAccepted(b: Book, d: Delivery, env: Env, n: nat, contents: nat -> Option<Event>, channel: nat -> nat)
    requires BookInv(b) && SenderLaw(b.delivered + {d.event}) && CoversTables(env, b.j, d.event)
    requires Standing(env) && Native(d, contents, channel) && Fit(b.j, n + 1, contents, channel)
    ensures Process(b.j, d, env).1.Done? && Fit(Process(b.j, d, env).0, n, contents, channel)
  {
    hide BookInv, Adds, ProcessFirst, ProcessAgain, SenderLaw, Roomy, CoversTables;
    assert !RunConflict(b.j, d);
    hide Plain, Native;
    if d.event.eventId in b.j.events {
      AgainAccepted(b, d, env, contents, channel);
      AgainAdds(b.j, d, env) by {
        NativeOrigin(d, contents, channel);
      }
    } else {
      FirstAccepted(b, d, env, n);
    }
    AddsLeavesRoom(b.j, Process(b.j, d, env).0, d, n) by {
      NativeOrigin(d, contents, channel);
    }
    AddsStaysPlain(b.j, Process(b.j, d, env).0, d, contents, channel);
  }

  lemma NativeOrigin(d: Delivery, contents: nat -> Option<Event>, channel: nat -> nat)
    requires Native(d, contents, channel)
    ensures d.origin == NativePayload && d.run.id.Some?
  {
  }

  // ---- what the other steps add: nothing -------------------------------------------------------

  /** `k` is `j` after saves and lifecycle steps, which add no entry. */
  predicate Shrinks(j: Journal, k: Journal) {
    && (forall id | id in k.runs :: id in j.runs && k.runs[id] == j.runs[id])
    && (forall id | id in k.events :: id in j.events && k.events[id] == j.events[id])
    && k.inputs.Keys <= j.inputs.Keys
    && (forall m | m in k.incidents :: m in j.incidents && k.incidents[m].episodes == j.incidents[m].episodes
                                       && k.incidents[m].closed == j.incidents[m].closed)
  }

  lemma ShrinksSelf(j: Journal)
    ensures Shrinks(j, j)
  {
  }

  lemma ShrinksTrans(i: Journal, j: Journal, k: Journal)
    requires Shrinks(i, j) && Shrinks(j, k)
    ensures Shrinks(i, k)
  {
  }

  lemma PruningShrinks(j: Journal, k: Journal)
    requires Prunes(j, k)
    ensures Shrinks(j, k)
  {
    hide PinnedRuns, PinnedEvents, PinnedInputs;
  }

  lemma FewerKeys<K>(a: set<K>, b: set<K>)
    requires a <= b
    ensures |a| <= |b|
  {
    assert b == a + (b - a);
  }

  lemma ShrinksSizes(j: Journal, k: Journal)
    requires Shrinks(j, k)
    ensures |k.runs| <= |j.runs| && |k.events| <= |j.events|
    ensures |k.inputs| <= |j.inputs| && |k.incidents| <= |j.incidents|
  {
    FewerKeys(k.runs.Keys, j.runs.Keys);
    FewerKeys(k.events.Keys, j.events.Keys);
    FewerKeys(k.inputs.Keys, j.inputs.Keys);
    FewerKeys(k.incidents.Keys, j.incidents.Keys);
    assert |k.runs| == |k.runs.Keys| && |k.events| == |k.events.Keys|;
    assert |k.inputs| == |k.inputs.Keys| && |k.incidents| == |k.incidents.Keys|;
  }

  lemma ShrinksStaysFit(j: Journal, k: Journal, n: nat, contents: nat -> Option<Event>, channel: nat -> nat)
    requires Shrinks(j, k)
    ensures Fit(j, n, contents, channel) ==> Fit(k, n, contents, channel)
  {
    ShrinksSizes(j, k);
  }

  lemma ShrinksStaysSmall(j: Journal, k: Journal)
    requires Shrinks(j, k)
    ensures WithinLimits(j) ==> WithinLimits(k)
  {
    ShrinksSizes(j, k);
  }

  /** A run noted without an event takes its share of the room. */
  lemma NotingLeavesRoom(j: Journal, id: nat, r: RunRecord, n: nat, contents: nat -> Option<Event>, channel: nat -> nat)
    requires Fit(j, n + 1, contents, channel) && r.eventId.None?
    ensures Fit(j.(runs := j.runs[id := r]), n, contents, channel)
  {
    FewerOrOneMore(j.runs[id := r].Keys, j.runs.Keys, id);
    assert |j.runs[id := r]| == |j.runs[id := r].Keys| && |j.runs| == |j.runs.Keys|;
  }

  lemma FitIsWithin(j: Journal, n: nat, contents: nat -> Option<Event>, channel: nat -> nat)
    requires Fit(j, n, contents, channel)
    ensures WithinLimits(j) && (n > 0 ==> Fit(j, n - 1, contents, channel))
  {
  }
}
