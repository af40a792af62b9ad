/** The reconciliation journal and the pure steps of `process`, `open_incident` and `attach`. */
module IncidentJournal {
  import opened HealthEvents

  const MAX_INCIDENTS: nat := 128
  const MAX_EPISODES: nat := 32
  const JOURNAL_LIMIT: nat := 1024
  const CLOSED_INCIDENT_LIMIT: nat := 64

  /** `hexproof-health-incident:<group>:<eventId>` */
  datatype Marker = Marker(group: string, eventId: nat)

  datatype Admission = RunAdmitted | RunNotAdmitted | RunUnverified

  datatype NativeRun = NativeRun(id: Option<nat>, webhook: bool, trigger: nat, admission: Admission,
                                 taskId: Option<nat>, triggeredAt: int)

  datatype Origin = NativePayload | OperatorOriginal | RuntimeInput

  datatype Reason = OriginalAdmissionUnverified | OriginalRunUnobserved | NativePending | OriginalPayloadUnavailable
                  | RuntimeReason(code: string)

  datatype Outcome = DuplicateEvent | ClosedEpisodeObservation | RecoveryUnmatched | StaleRecovery | RecoveryRecorded
                   | IncidentEvent | InvalidPayload | PendingRun

  datatype RunRecord = RunRecord(eventId: Option<nat>, marker: Option<Marker>, outcome: Outcome,
                                 unresolved: Option<Reason>, at: int, native: NativeRun)

  datatype EventRecord = EventRecord(runId: Option<nat>, marker: Option<Marker>, payload: Event, native: NativeRun,
                                     origin: Origin, bytes: Option<string>, unresolved: Option<Reason>, at: int)

  datatype InputRecord = InputRecord(eventId: Option<nat>, marker: Option<Marker>, pending: bool,
                                     unresolved: Option<Reason>, at: int)

  datatype Episode = Episode(signal: Signal, source: string, recovered: bool, lastSequence: nat)

  datatype Phase = Pending | Uncertain | Created | Indexed | AdmissionPending | Admitted

  datatype Incident = Incident(group: string, phase: Phase, issueId: Option<nat>, episodes: map<nat, Episode>,
                               eventCount: nat, firstEventAt: int, lastEventAt: Option<int>, closed: bool,
                               metadataDirty: bool, attempts: nat)

  datatype Cursor = Cursor(runId: nat, triggeredAt: int)

  datatype Journal = Journal(runs: map<nat, RunRecord>, events: map<nat, EventRecord>, incidents: map<Marker, Incident>,
                             open: map<string, Marker>, inputs: map<nat, InputRecord>, discovery: Option<Cursor>)

  const EMPTY_JOURNAL := Journal(map[], map[], map[], map[], map[], None)

  datatype Error = RunIdentityConflict | EventIdentityConflict | IncidentUnreadable | AuthorityRefused | JournalCapacity
                 | EpisodeCapacity | EpisodeIdentityConflict | DiscoveryIncomplete | DuplicateMarker

  datatype Result<+T> = Done(value: T) | Failed(error: Error)

  /** What one call reads from outside the journal: the clock, the issue of the open incident (`None`
      when unreadable, otherwise whether maintenance closed it), whether the saved authority still
      stands, and the iteration orders of the incident and event tables. */
  datatype Env = Env(now: int, issueClosed: Option<bool>, authorized: bool, markers: seq<Marker>, ids: seq<nat>)

  /** One delivery to `process`. */
  datatype Delivery = Delivery(run: NativeRun, event: Event, origin: Origin, bytes: Option<string>)

  // ---- attach ----------------------------------------------------------------------------------

  function Later(last: Option<int>, at: int): Option<int> {
    match last case None => Some(at) case Some(t) => Some(if t < at then at else t)
  }

  function Attached(inc: Incident, e: Event, count: bool): Incident {
    inc.(eventCount := inc.eventCount + (if count then 1 else 0),
         lastEventAt := Later(inc.lastEventAt, e.occurredAt), metadataDirty := true)
  }

  // ---- episodes --------------------------------------------------------------------------------

  function Started(e: Event): Episode {
    Episode(e.signal, e.source, false, 0)
  }

  /** The episode after a failure or escalation. */
  function Extended(ep: Episode, e: Event): Episode {
    if e.sequence > ep.lastSequence && !ep.recovered then ep.(lastSequence := e.sequence) else ep
  }

  /** The episode after a recovery that belongs to it. */
  function Recovered(ep: Episode, e: Event): Episode {
    if e.sequence > ep.lastSequence then ep.(recovered := true, lastSequence := e.sequence) else ep
  }

  predicate SameSignal(ep: Episode, e: Event) {
    ep.source == e.source && ep.signal == e.signal
  }

  /** The episode table after one more event of the incident. */
  function Merge(eps: map<nat, Episode>, e: Event): map<nat, Episode> {
    if e.kind == Recovery then
      if e.episodeId in eps then eps[e.episodeId := Recovered(eps[e.episodeId], e)] else eps
    else
      eps[e.episodeId := Extended(if e.episodeId in eps then eps[e.episodeId] else Started(e), e)]
  }

  function Joined(inc: Incident, e: Event): Incident {
    Attached(inc.(episodes := Merge(inc.episodes, e)), e, true)
  }

  // ---- open_incident ---------------------------------------------------------------------------

  /** The open incident of a group, after closing it if maintenance closed its issue. */
  function OpenIncident(j: Journal, group: string, env: Env): (Journal, Result<Option<Marker>>) {
    if group !in j.open || j.open[group] !in j.incidents then (j, Done(None))
    else
      var m := j.open[group];
      var inc := j.incidents[m];
      if inc.issueId.Some? && env.issueClosed.None? then (j, Failed(IncidentUnreadable))
      else if !env.authorized then (j, Failed(AuthorityRefused))
      else if inc.issueId.Some? && env.issueClosed.value then
        (j.(incidents := j.incidents[m := inc.(closed := true)], open := j.open - {group}), Done(None))
      else (j, Done(Some(m)))
  }

  /** A closed incident of the event's group that lists its episode. */
  predicate HoldsClosed(j: Journal, m: Marker, e: Event) {
    m in j.incidents && j.incidents[m].closed && j.incidents[m].group == e.group
        && e.episodeId in j.incidents[m].episodes
  }

  function FirstClosed(j: Journal, e: Event, markers: seq<Marker>): (r: Option<Marker>)
    ensures r.Some? ==> HoldsClosed(j, r.value, e)
    ensures r.None? ==> forall m | m in markers :: !HoldsClosed(j, m, e)
  {
    if markers == [] then None
    else if HoldsClosed(j, markers[0], e) then Some(markers[0])
    else FirstClosed(j, e, markers[1..])
  }

  // ---- process ---------------------------------------------------------------------------------

  function UnverifiedReason(run: NativeRun): Option<Reason> {
    if run.admission == RunUnverified && run.id.Some? then Some(OriginalAdmissionUnverified) else None
  }

  function Recorded(j: Journal, run: NativeRun, r: RunRecord): Journal {
    if run.id.Some? then j.(runs := j.runs[run.id.value := r]) else j
  }

  function RunRecordOf(d: Delivery, marker: Option<Marker>, outcome: Outcome, now: int): RunRecord {
    RunRecord(Some(d.event.eventId), marker, outcome, UnverifiedReason(d.run), now, d.run)
  }

  function EventRecordOf(d: Delivery, marker: Option<Marker>, now: int): EventRecord {
    EventRecord(d.run.id, marker, d.event, d.run, d.origin, d.bytes,
                if d.run.id.None? then Some(OriginalRunUnobserved) else UnverifiedReason(d.run), now)
  }

  /** Store a first delivery: the event under its ID and the run, if any, under its own. */
  function Stored(j: Journal, d: Delivery, marker: Option<Marker>, outcome: Outcome, now: int): Journal {
    Recorded(j.(events := j.events[d.event.eventId := EventRecordOf(d, marker, now)]), d.run,
             RunRecordOf(d, marker, outcome, now))
  }

  /** A first delivery that belongs to an incident of the journal. */
  function Admit(j: Journal, m: Marker, d: Delivery, outcome: Outcome, now: int): Journal
    requires m in j.incidents
  {
    Stored(j.(incidents := j.incidents[m := Joined(j.incidents[m], d.event)]), d, Some(m), outcome, now)
  }

  function FoundedIncident(e: Event): Incident {
    Incident(e.group, Pending, None, map[], 0, e.occurredAt, None, false, false, 0)
  }

  function Found(j: Journal, e: Event): Journal {
    var m := Marker(e.group, e.eventId);
    j.(incidents := j.incidents[m := FoundedIncident(e)], open := j.open[e.group := m])
  }

  /** A retained unmatched recovery of the event's episode. */
  predicate Matches(r: EventRecord, e: Event) {
    && r.marker.None? && r.payload.kind == Recovery
    && r.payload.group == e.group && r.payload.source == e.source && r.payload.signal == e.signal
       && r.payload.episodeId == e.episodeId
  }

  function Adopt(j: Journal, m: Marker, e: Event, id: nat): Journal
    requires m in j.incidents
  {
    if id in j.events && Matches(j.events[id], e) then
      var r := j.events[id];
      var k := j.(events := j.events[id := r.(marker := Some(m))],
                  incidents := j.incidents[m := Joined(j.incidents[m], r.payload)]);
      if r.runId.Some? && r.runId.value in j.runs then
        k.(runs := j.runs[r.runId.value := j.runs[r.runId.value].(marker := Some(m), outcome := RecoveryRecorded)])
      else k
    else j
  }

  /** Reassociate retained recoveries with the episode that has now appeared. */
  function AdoptAll(j: Journal, m: Marker, e: Event, ids: seq<nat>): (k: Journal)
    requires m in j.incidents
    ensures m in k.incidents
  {
    if ids == [] then j else Adopt(AdoptAll(j, m, e, ids[..|ids| - 1]), m, e, ids[|ids| - 1])
  }

  function ProcessRecovery(j: Journal, marker: Option<Marker>, d: Delivery, now: int)
    : (Journal, Result<Option<Marker>>)
  {
    var e := d.event;
    if marker.None? || marker.value !in j.incidents || e.episodeId !in j.incidents[marker.value].episodes
       || !SameSignal(j.incidents[marker.value].episodes[e.episodeId], e) then
      (Stored(j, d, None, RecoveryUnmatched, now), Done(None))
    else
      var last := j.incidents[marker.value].episodes[e.episodeId].lastSequence;
      var outcome := if e.sequence <= last then StaleRecovery else RecoveryRecorded;
      (Admit(j, marker.value, d, outcome, now), Done(marker))
  }

  function ProcessFault(j: Journal, marker: Option<Marker>, d: Delivery, env: Env): (Journal, Result<Option<Marker>>)
    requires marker.Some? ==> marker.value in j.incidents
  {
    var e := d.event;
    if marker.None? && |j.incidents| >= MAX_INCIDENTS then (j, Failed(JournalCapacity))
    else
      var m := if marker.None? then Marker(e.group, e.eventId) else marker.value;
      var k := if marker.None? then Found(j, e) else j;
      var eps := k.incidents[m].episodes;
      if e.episodeId !in eps && |eps| >= MAX_EPISODES then (k, Failed(EpisodeCapacity))
      else if e.episodeId in eps && !SameSignal(eps[e.episodeId], e) then (k, Failed(EpisodeIdentityConflict))
      else (AdoptAll(Admit(k, m, d, IncidentEvent, env.now), m, e, env.ids), Done(Some(m)))
  }

  function ProcessFirst(j: Journal, d: Delivery, env: Env): (Journal, Result<Option<Marker>>) {
    var (k, found) := OpenIncident(j, d.event.group, env);
    match found
    case Failed(error) => (k, Failed(error))
    case Done(marker) =>
      var closed := FirstClosed(k, d.event, env.markers);
      if closed.Some? then (Stored(k, d, closed, ClosedEpisodeObservation, env.now), Done(closed))
      else if d.event.kind == Recovery then ProcessRecovery(k, marker, d, env.now)
      else ProcessFault(k, marker, d, env)
  }

  /** A delivery of an event the journal already stores. */
  function ProcessAgain(j: Journal, d: Delivery, env: Env): (Journal, Result<Option<Marker>>)
    requires d.event.eventId in j.events
  {
    var previous := j.events[d.event.eventId];
    if previous.payload != d.event || previous.native.trigger != d.run.trigger then (j, Failed(EventIdentityConflict))
    else if d.bytes.Some? && previous.bytes.Some? && previous.bytes != d.bytes then (j, Failed(EventIdentityConflict))
    else if previous.runId.Some? && d.run.id.Some? && previous.runId != d.run.id && d.origin == OperatorOriginal then
      (j, Failed(RunIdentityConflict))
    else if previous.marker.Some? && previous.marker.value in j.incidents && !env.authorized then
      (j, Failed(AuthorityRefused))
    else
      var imported := if d.origin != OperatorOriginal then j
                      else j.(events := j.events[d.event.eventId := Enriched(previous, d)]);
      var touched := if previous.marker.None? || previous.marker.value !in j.incidents then imported
                     else
                       var m := previous.marker.value;
                       imported.(incidents := j.incidents[m := Attached(j.incidents[m], d.event, false)]);
      (Recorded(touched, d.run, RunRecordOf(d, previous.marker, DuplicateEvent, env.now)), Done(previous.marker))
  }

  /** An operator import binds original bytes, and a run if one is proved, to a stored event. */
  function Enriched(previous: EventRecord, d: Delivery): EventRecord {
    var bound := previous.(bytes := d.bytes, origin := d.origin);
    if d.run.id.Some? then bound.(runId := d.run.id, native := d.run, unresolved := UnverifiedReason(d.run)) else bound
  }

  predicate RunConflict(j: Journal, d: Delivery) {
    && d.run.id.Some? && d.run.id.value in j.runs
    && j.runs[d.run.id.value].eventId.Some? && j.runs[d.run.id.value].eventId != Some(d.event.eventId)
  }

  function Process(j: Journal, d: Delivery, env: Env): (Journal, Result<Option<Marker>>) {
    if RunConflict(j, d) then (j, Failed(RunIdentityConflict))
    else if d.event.eventId in j.events then ProcessAgain(j, d, env)
    else ProcessFirst(j, d, env)
  }
}
