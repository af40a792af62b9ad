/** The reconciler as the program runs it: journal tables updated in place under the lock, the journal
    file that `save` replaces, and an issue tracker that answers as it likes but keeps what it created.
    Every method is tied to the steps of `IncidentRuns`. */
module Reconciler {
  import opened HealthEvents
  import opened IncidentJournal
  import opened IncidentInvariant
  import opened IncidentDelivery
  import opened IncidentPruning
  import opened IncidentRuns
  import opened JournalRoom
  import opened RunDiscovery
  import opened IncidentProgress
  import IncidentTheorems
  import ReceivedEvents

  // ---- helpers on values -----------------------------------------------------------------------

  /** Some iteration order of a dictionary. */
  method Listed<T(==)>(keys: set<T>) returns (order: seq<T>)
    ensures forall k :: k in keys <==> k in order
    ensures forall i, j | 0 <= i < j < |order| :: order[i] != order[j]
  {
    order := [];
    var todo := keys;
    while todo != {}
      invariant todo <= keys
      invariant forall k :: k in keys <==> k in todo || k in order
      invariant forall k | k in order :: k !in todo
      invariant forall i, j | 0 <= i < j < |order| :: order[i] != order[j]
    {
      var k :| k in todo;
      order := order + [k];
      todo := todo - {k};
    }
  }

  /** A key of the smallest age. */
  method Oldest<K(==), T>(t: map<K, T>, keys: set<K>, at: T -> int) returns (k: K)
    requires keys != {} && keys <= t.Keys
    ensures k in keys && forall i | i in keys :: at(t[k]) <= at(t[i])
  {
    k :| k in keys;
    var todo := keys - {k};
    while todo != {}
      invariant todo <= keys && k in keys
      invariant forall i | i in keys && i !in todo :: at(t[k]) <= at(t[i])
    {
      var i :| i in todo;
      if at(t[i]) < at(t[k]) {
        k := i;
      }
      todo := todo - {i};
    }
  }

  lemma RemovalShrinks<K, T>(t: map<K, T>, k: K)
    requires k in t
    ensures |t - {k}| == |t| - 1
  {
    assert (t - {k}).Keys == t.Keys - {k};
    assert |(t - {k}).Keys| == |t - {k}|;
  }

  /** Remove the oldest entries that are not pinned until the table is within its limit. */
  method PruneTable<T>(t: map<nat, T>, pinned: set<nat>, at: T -> int) returns (u: map<nat, T>)
    ensures Thinned(t, u, pinned) && Economical(t, u, pinned, at) && (|t| <= JOURNAL_LIMIT ==> u == t)
  {
    u := t;
    var removable := t.Keys - pinned;
    while |u| > JOURNAL_LIMIT && removable != {}
      invariant Thinned(t, u, pinned) && removable == u.Keys - pinned
      invariant |t| <= JOURNAL_LIMIT ==> u == t
      invariant |t| > JOURNAL_LIMIT ==> |u| >= JOURNAL_LIMIT
      invariant forall r, k | r in t && r !in u && k in removable :: at(t[r]) <= at(t[k])
      decreases |removable|
    {
      var k := Oldest(u, removable, at);
      RemovalShrinks(u, k);
      u := u - {k};
      removable := removable - {k};
    }
  }

  method OldestClosed(incidents: map<Marker, Incident>) returns (m: Marker)
    requires Closed(incidents) != {}
    ensures m in Closed(incidents) && forall n | n in Closed(incidents) ::
              NotLater(incidents[m].lastEventAt, incidents[n].lastEventAt)
  {
    var keys := Closed(incidents);
    m :| m in keys;
    var todo := keys - {m};
    while todo != {}
      invariant todo <= keys && m in keys
      invariant forall n | n in keys && n !in todo :: NotLater(incidents[m].lastEventAt, incidents[n].lastEventAt)
    {
      var n :| n in todo;
      if !NotLater(incidents[m].lastEventAt, incidents[n].lastEventAt) {
        m := n;
      }
      todo := todo - {n};
    }
  }

  method PruneIncidents(a: map<Marker, Incident>) returns (b: map<Marker, Incident>)
    ensures KeepsLatest(a, b)
  {
    b := a;
    while |Closed(b)| > CLOSED_INCIDENT_LIMIT
      invariant DropsClosed(a, b)
      invariant |Closed(a)| <= CLOSED_INCIDENT_LIMIT ==> b == a
      invariant |Closed(a)| > CLOSED_INCIDENT_LIMIT ==> |Closed(b)| >= CLOSED_INCIDENT_LIMIT
      invariant forall m, n | m in a && m !in b && n in Closed(b) :: NotLater(a[m].lastEventAt, b[n].lastEventAt)
      decreases |Closed(b)|
    {
      var m := OldestClosed(b);
      assert Closed(b - {m}) == Closed(b) - {m};
      b := b - {m};
    }
  }

  // ---- runs of the program ----------------------------------------------------------------------

  /** The state is what these actions, delivering from these events, have led to. */
  ghost predicate Traced(past: seq<Action>, s: Sys, universe: set<Event>) {
    Run(INITIAL, past) == Some(s) && DeliversFrom(past, universe)
  }

  lemma NothingTraced(universe: set<Event>)
    ensures Traced([], INITIAL, universe)
  {
  }

  lemma Steps(past: seq<Action>, s: Sys, a: Action, universe: set<Event>)
    requires Traced(past, s, universe) && SysInv(s, universe) && SenderLaw(universe) && Enabled(s, a)
    requires a.Deliver? ==> a.delivery.event in universe
    ensures Traced(past + [a], Effect(s, a), universe) && SysInv(Effect(s, a), universe)
  {
    hide SysInv, Enabled, Effect;
    assert (past + [a])[..|past|] == past;
    StepKeepsInv(s, a, universe);
  }

  lemma Delivers(past: seq<Action>, s: Sys, d: Delivery, env: Env, universe: set<Event>)
    requires Traced(past, s, universe) && SysInv(s, universe) && SenderLaw(universe) && s.progress.Idle?
    requires CoversTables(env, s.mem.j, d.event) && d.event in universe
    ensures Enabled(s, Deliver(d, env)) && Effect(s, Deliver(d, env)) == s.(mem := AfterDelivery(s.mem, d, env))
    ensures AfterDelivery(s.mem, d, env).j == IncidentJournal.Process(s.mem.j, d, env).0
    ensures Traced(past + [Deliver(d, env)], Effect(s, Deliver(d, env)), universe)
    ensures SysInv(Effect(s, Deliver(d, env)), universe)
  {
    hide SysInv, CoversTables, Traced, SenderLaw, IncidentJournal.Process;
    Steps(past, s, Deliver(d, env), universe);
  }

  lemma TracedAnswers(past: seq<Action>, s: Sys, universe: set<Event>, d: Delivery, env: Env)
    requires Traced(past, s, universe) && SenderLaw(universe) && Enabled(s, Deliver(d, env)) && d.event in universe
    ensures ReceivedEvents.Answered(s.mem.j, Effect(s, Deliver(d, env)).mem.j,
                                    IncidentJournal.Process(s.mem.j, d, env).1, d, env)
  {
    hide SenderLaw, Enabled, Effect, ReceivedEvents.Answered;
    ReceivedEvents.DeliveryIsAnswered(s, universe, d, env);
  }

  lemma Restarts(past: seq<Action>, s: Sys, universe: set<Event>)
    requires Traced(past, s, universe) && SysInv(s, universe) && SenderLaw(universe)
    ensures Enabled(s, Restart) && Effect(s, Restart) == s.(mem := s.disk, progress := Idle)
    ensures SysInv(Effect(s, Restart), universe) && Traced(past + [Restart], Effect(s, Restart), universe)
  {
    hide SysInv, Traced;
    Steps(past, s, Restart, universe);
  }

  /** A save that fits: discard, then write. */
  lemma Saves(past: seq<Action>, s: Sys, left: Journal, universe: set<Event>)
    requires Traced(past, s, universe) && SysInv(s, universe) && SenderLaw(universe) && Prunes(s.mem.j, left)
    ensures var t := Pruned(s, left);
            && SysInv(t, universe) && Traced(past + [Prune(left)], t, universe)
            && (WithinLimits(left) ==>
                  SysInv(Written(t), universe) && Traced(past + [Prune(left), Commit], Written(t), universe))
  {
    hide SysInv, Prunes, Traced;
    Steps(past, s, Prune(left), universe);
    if WithinLimits(left) {
      Steps(past + [Prune(left)], Pruned(s, left), Commit, universe);
      assert past + [Prune(left)] + [Commit] == past + [Prune(left), Commit];
    }
  }

  lemma Unthinned(j: Journal)
    ensures Thinned(j.runs, j.runs, PinnedRuns(j)) && Thinned(j.events, j.events, PinnedEvents(j))
    ensures DropsClosed(j.incidents, j.incidents)
    ensures forall pinned :: Thinned(j.inputs, j.inputs, pinned)
  {
  }

  lemma PrunesTables(j: Journal, runs: map<nat, RunRecord>, events: map<nat, EventRecord>,
                     inputs: map<nat, InputRecord>, incidents: map<Marker, Incident>)
    requires Thinned(j.runs, runs, PinnedRuns(j)) && Thinned(j.events, events, PinnedEvents(j))
    requires Thinned(j.inputs, inputs, PinnedInputs(j.(events := events))) && DropsClosed(j.incidents, incidents)
    ensures Prunes(j, Journal(runs, events, incidents, j.open, inputs, j.discovery))
  {
  }

  lemma LatestDropClosed(a: map<Marker, Incident>, b: map<Marker, Incident>)
    requires KeepsLatest(a, b)
    ensures DropsClosed(a, b)
  {
  }

  ghost predicate AllClosed(j: Journal) {
    forall m | m in j.incidents :: j.incidents[m].closed
  }

  /** What fits is saved. */
  lemma SmallStaysSmall(j: Journal, k: Journal)
    requires Prunes(j, k) && WithinLimits(j)
    ensures WithinLimits(k)
  {
    PruningShrinks(j, k);
    ShrinksSizes(j, k);
  }

  lemma LandedWereAsked(s: Sys, universe: set<Event>)
    requires SysInv(s, universe)
    ensures s.landed <= s.creates
  {
    hide BookInv, TrackerInv, ProgressOk;
  }

  lemma OneIssue(s: Sys, universe: set<Event>, m: Marker)
    requires SysInv(s, universe)
    ensures s.landed[m] <= 1
  {
    hide BookInv, TrackerInv, ProgressOk;
  }

  lemma FaultRefuses(j: Journal, marker: Option<Marker>, d: Delivery, env: Env)
    requires (marker.Some? ==> marker.value in j.incidents) && ProcessFault(j, marker, d, env).1.Failed?
    ensures var e := ProcessFault(j, marker, d, env).1.error;
            e.JournalCapacity? || e.EpisodeCapacity? || e.EpisodeIdentityConflict?
  {
    hide Admit, AdoptAll;
  }

  /** What `process` refuses: never for two issues of one marker, and for want of an answer or of
      authority only when one is wanting. */
  lemma ProcessRefuses(j: Journal, d: Delivery, env: Env)
    requires IncidentJournal.Process(j, d, env).1.Failed?
    ensures var e := IncidentJournal.Process(j, d, env).1.error;
            && !e.DuplicateMarker? && !e.DiscoveryIncomplete?
            && (e.IncidentUnreadable? ==> env.issueClosed.None?) && (e.AuthorityRefused? ==> !env.authorized)
  {
    hide Admit, AdoptAll, Stored, FirstClosed, ProcessFault;
    if !RunConflict(j, d) && d.event.eventId !in j.events {
      var (k, r) := IncidentJournal.OpenIncident(j, d.event.group, env);
      if r.Done? && ProcessFault(k, r.value, d, env).1.Failed? {
        FaultRefuses(k, r.value, d, env);
      }
    }
  }

  /** What is discarded settled nothing. */
  lemma SavingOwesTheSame(s: Sys, left: Journal, universe: set<Event>)
    requires SysInv(s, universe) && Prunes(s.mem.j, left)
    ensures Obligations(left) == Obligations(s.mem.j)
  {
    hide BookInv, CreateInv, Prunes, Obligations;
    KeyedBook(s.mem);
    PruningKeepsObligations(s.mem.j, left);
  }

  function Pruned(s: Sys, left: Journal): Sys {
    s.(mem := Discarding(s.mem, left))
  }

  function Written(s: Sys): Sys {
    s.(disk := s.mem, progress := AfterWriting(s.progress))
  }

  /** A saved intent may be acted on. */
  function AfterWriting(p: Progress): Progress {
    match p case Intended(m) => Recorded(m) case _ => p
  }

  // ---- the program -----------------------------------------------------------------------------

  class Reconciler {
    const triggers: set<nat>
    const serviceGroups: set<string>
    const cooperative: bool                   // the tracker can be read and the saved authority stands

    var runs: map<nat, RunRecord>
    var events: map<nat, EventRecord>
    var incidents: map<Marker, Incident>
    var openGroups: map<string, Marker>
    var inputs: map<nat, InputRecord>
    var discovery: Option<Cursor>

    var file: Journal                       // journal.json
    var creates: multiset<Marker>           // the tracker: creates asked for
    var landed: multiset<Marker>            // the tracker: issues that exist

    ghost const universe: set<Event>        // whatever the senders sent
    ghost const contents: nat -> Option<Event> // the valid payload of each native run
    ghost const channel: nat -> nat         // the trigger through which each event comes
    ghost var sys: Sys                      // both copies with their histories
    ghost var past: seq<Action>             // all that ever happened
    ghost var handled: set<nat>             // runs ever entered into the journal
    ghost var durablyHandled: set<nat>      // those of them that a save has followed

    ghost function J(): Journal
      reads this
    {
      Journal(runs, events, incidents, openGroups, inputs, discovery)
    }

    /** The fields and the file are what the run so far says they are. */
    ghost predicate Shows(s: Sys)
      reads this
    {
      J() == s.mem.j && file == s.disk.j && creates == s.creates && landed == s.landed
    }

    ghost predicate Valid()
      reads this
    {
      && Shows(sys) && SenderLaw(universe) && SysInv(sys, universe) && Traced(past, sys, universe)
      && RunsHeard(sys.mem, contents) && RunsHeard(sys.disk, contents)
      && sys.mem.j.runs.Keys <= handled && sys.disk.j.runs.Keys <= durablyHandled <= handled
    }

    /** Nothing in memory waits for a save. */
    ghost predicate Synced()
      reads this
    {
      sys.disk == sys.mem && sys.progress.Idle? && durablyHandled == handled
    }

    lemma Shown()
      requires Valid()
      ensures J() == sys.mem.j && file == sys.disk.j && creates == sys.creates && landed == sys.landed
      ensures incidents == sys.mem.j.incidents && SysInv(sys, universe)
    {
    }

    constructor (triggers: set<nat>, serviceGroups: set<string>, cooperative: bool, ghost universe: set<Event>,
                 ghost contents: nat -> Option<Event>, ghost channel: nat -> nat)
      requires SenderLaw(universe)
      ensures this.triggers == triggers && this.serviceGroups == serviceGroups && this.cooperative == cooperative
      ensures this.universe == universe && this.contents == contents && this.channel == channel
      ensures Valid() && Synced() && sys == INITIAL
    {
      hide SysInv;
      this.triggers, this.serviceGroups, this.cooperative := triggers, serviceGroups, cooperative;
      this.universe, this.contents, this.channel := universe, contents, channel;
      runs, events, incidents, openGroups, inputs, discovery := map[], map[], map[], map[], map[], None;
      file, creates, landed := EMPTY_JOURNAL, multiset{}, multiset{};
      sys, past, handled, durablyHandled := INITIAL, [], {}, {};
      new;
      InitialInv(universe);
      NothingTraced(universe);
    }

    /** Start a locked invocation: everything not saved is forgotten. */
    method Load()
      requires Valid()
      modifies this
      ensures Valid() && Synced() && sys == Effect(old(sys), Restart)
      ensures past == old(past) + [Restart] && durablyHandled == old(durablyHandled)
    {
      hide SysInv, SenderLaw, RunsHeard, Enabled, Effect, Traced;
      Restarts(past, sys, universe);
      runs, events, incidents, openGroups, inputs, discovery := file.runs, file.events, file.incidents, file.open,
          file.inputs, file.discovery;
      sys, past, handled := Effect(sys, Restart), past + [Restart], durablyHandled;
    }

    /** Why a step may fail: never for two issues of one marker, and with a readable tracker and standing
        authority never for want of them. */
    predicate Excused(e: Error) {
      && !e.DuplicateMarker?
      && (cooperative ==> !e.IncidentUnreadable? && !e.AuthorityRefused? && !e.DiscoveryIncomplete?)
    }

    // ---- save ----------------------------------------------------------------------------------

    /** Discard table by table what is neither pinned nor recent; false when a table stays too large. */
    method Discard() returns (fits: bool)
      modifies this`runs, this`events, this`inputs, this`incidents
      ensures Prunes(old(J()), J()) && fits == WithinLimits(J())
      ensures Economical(old(runs), runs, PinnedRuns(old(J())), RunAge)
      ensures fits ==> Economical(old(events), events, PinnedEvents(old(J())), EventAge)
      ensures fits ==> Economical(old(inputs), inputs, PinnedInputs(old(J()).(events := events)), InputAge)
      ensures fits ==> KeepsLatest(old(incidents), incidents)
      ensures WithinLimits(old(J())) ==> fits
    {
      hide Thinned, Economical, KeepsLatest, PinnedRuns, PinnedEvents, PinnedInputs, DropsClosed, Prunes;
      var j := Journal(runs, events, incidents, openGroups, inputs, discovery);
      Unthinned(j);
      var r := PruneTable(runs, PinnedRuns(j), RunAge);
      runs := r;
      PrunesTables(j, r, j.events, j.inputs, j.incidents);
      if |runs| > JOURNAL_LIMIT {
        return false;
      }
      var e := PruneTable(events, PinnedEvents(j), EventAge);
      events := e;
      PrunesTables(j, r, e, j.inputs, j.incidents);
      if |events| > JOURNAL_LIMIT {
        return false;
      }
      var n := PruneTable(inputs, PinnedInputs(j.(events := e)), InputAge);
      inputs := n;
      PrunesTables(j, r, e, n, j.incidents);
      if |inputs| > JOURNAL_LIMIT {
        return false;
      }
      var i := PruneIncidents(incidents);
      incidents := i;
      LatestDropClosed(j.incidents, i);
      PrunesTables(j, r, e, n, i);
      if WithinLimits(j) {
        SmallStaysSmall(j, J());
      }
      return |incidents| <= MAX_INCIDENTS;
    }

    /** Replace the file if all tables fit. */
    method Save() returns (ok: bool)
      requires Valid()
      modifies this`runs, this`events, this`inputs, this`incidents, this`file, this`sys, this`past, this`durablyHandled
      ensures Valid() && past == old(past) + (if ok then [Prune(J()), Commit] else [Prune(J())])
      ensures Prunes(old(sys).mem.j, sys.mem.j) && ok == WithinLimits(sys.mem.j)
      ensures ok ==> SavedAs(old(J()), J())
      ensures Obligations(J()) == Obligations(old(J()))
      ensures sys == if ok then Written(Pruned(old(sys), J())) else Pruned(old(sys), J())
      ensures durablyHandled == if ok then handled else old(durablyHandled)
      ensures WithinLimits(old(J())) ==> ok
    {
      hide SysInv, SenderLaw, RunsHeard, Prunes, WithinLimits, Economical, KeepsLatest, Traced, Obligations, PinnedRuns,
        PinnedEvents, PinnedInputs, Discarding;
      ghost var before := sys;
      ok := Discard();
      SavingOwesTheSame(before, J(), universe);
      Saves(past, before, J(), universe);
      PruningHears(before.mem, J(), contents);
      if ok {
        file := Journal(runs, events, incidents, openGroups, inputs, discovery);
        sys, durablyHandled := Written(Pruned(before, J())), handled;
        past := past + [Prune(J()), Commit];
      } else {
        sys, past := Pruned(before, J()), past + [Prune(J())];
      }
    }

    // ---- process -------------------------------------------------------------------------------

    method Attach(m: Marker, e: Event, count: bool)
      requires m in incidents
      modifies this`incidents
      ensures incidents == old(incidents)[m := Attached(old(incidents[m]), e, count)]
    {
      var inc := incidents[m];
      if count {
        inc := inc.(eventCount := inc.eventCount + 1);
      }
      if inc.lastEventAt.None? || inc.lastEventAt.value < e.occurredAt {
        inc := inc.(lastEventAt := Some(e.occurredAt));
      }
      incidents := incidents[m := inc.(metadataDirty := true)];
    }

    /** Close the group's incident when maintenance closed its issue; otherwise answer it. */
    method OpenIncident(group: string, env: Env) returns (r: Result<Option<Marker>>)
      modifies this`incidents, this`openGroups
      ensures (J(), r) == IncidentJournal.OpenIncident(old(J()), group, env)
    {
      if group !in openGroups || openGroups[group] !in incidents {
        return Done(None);
      }
      var m := openGroups[group];
      var issueId := incidents[m].issueId;
      if issueId.Some? && env.issueClosed.None? {
        return Failed(IncidentUnreadable);
      }
      if !env.authorized {
        return Failed(AuthorityRefused);
      }
      if issueId.Some? && env.issueClosed.value {
        incidents := incidents[m := incidents[m].(closed := true)];
        openGroups := openGroups - {group};
        return Done(None);
      }
      return Done(Some(m));
    }

    method ClosedHolder(e: Event, markers: seq<Marker>) returns (found: Option<Marker>)
      ensures found == FirstClosed(J(), e, markers)
    {
      ghost var j := J();
      found := None;
      for i := 0 to |markers|
        invariant FirstClosed(j, e, markers[i..]) == FirstClosed(j, e, markers)
      {
        assert markers[i..][0] == markers[i] && markers[i..][1..] == markers[i + 1..];
        if markers[i] in incidents && incidents[markers[i]].closed && incidents[markers[i]].group == e.group
           && e.episodeId in incidents[markers[i]].episodes {
          return Some(markers[i]);
        }
      }
    }

    method Store(d: Delivery, marker: Option<Marker>, outcome: Outcome, now: int)
      modifies this`events, this`runs
      ensures J() == Stored(old(J()), d, marker, outcome, now)
    {
      var unresolved := UnverifiedReason(d.run);
      if d.run.id.None? {
        unresolved := Some(OriginalRunUnobserved);
      }
      var stored := EventRecord(d.run.id, marker, d.event, d.run, d.origin, d.bytes, unresolved, now);
      events := events[d.event.eventId := stored];
      if d.run.id.Some? {
        var noted := RunRecord(Some(d.event.eventId), marker, outcome, UnverifiedReason(d.run), now, d.run);
        runs := runs[d.run.id.value := noted];
      }
    }

    /** One retained recovery, reassociated with the episode that has now appeared. */
    method AdoptRecovery(m: Marker, e: Event, id: nat)
      requires m in incidents
      modifies this`events, this`incidents, this`runs
      ensures J() == Adopt(old(J()), m, e, id)
    {
      if id !in events || !Matches(events[id], e) {
        return;
      }
      var prior := events[id];
      var recovery := prior.payload;
      var eps := incidents[m].episodes;
      if recovery.episodeId in eps && recovery.sequence > eps[recovery.episodeId].lastSequence {
        var episode := eps[recovery.episodeId];
        eps := eps[recovery.episodeId := episode.(recovered := true, lastSequence := recovery.sequence)];
      }
      SameEpisodes(incidents[m].episodes, eps, recovery);
      incidents := incidents[m := incidents[m].(episodes := eps)];
      events := events[id := prior.(marker := Some(m))];
      Attach(m, recovery, true);
      if prior.runId.Some? && prior.runId.value in runs {
        runs := runs[prior.runId.value := runs[prior.runId.value].(marker := Some(m), outcome := RecoveryRecorded)];
      }
    }

    method AdoptRecoveries(m: Marker, e: Event, ids: seq<nat>)
      requires m in incidents
      modifies this`events, this`incidents, this`runs
      ensures J() == AdoptAll(old(J()), m, e, ids)
    {
      hide Adopt;
      ghost var start := J();
      for i := 0 to |ids|
        invariant m in incidents && J() == AdoptAll(start, m, e, ids[..i])
      {
        assert ids[..i + 1][..i] == ids[..i];
        AdoptRecovery(m, e, ids[i]);
        AdoptHosts(AdoptAll(start, m, e, ids[..i]), m, e, ids[i]);
      }
      assert ids[..|ids|] == ids;
    }

    /** The incident after a recovery, perhaps a stale one, of an episode it lists. */
    method NoteRecovery(m: Marker, e: Event) returns (outcome: Outcome)
      requires m in incidents && e.episodeId in incidents[m].episodes && e.kind == Recovery
      modifies this`incidents
      ensures incidents == old(incidents)[m := Joined(old(incidents[m]), e)]
      ensures outcome == if e.sequence <= old(incidents[m].episodes[e.episodeId].lastSequence) then StaleRecovery
              else RecoveryRecorded
    {
      var eps := incidents[m].episodes;
      var episode := eps[e.episodeId];
      outcome := StaleRecovery;
      if e.sequence > episode.lastSequence {
        eps := eps[e.episodeId := episode.(recovered := true, lastSequence := e.sequence)];
        outcome := RecoveryRecorded;
      }
      SameEpisodes(incidents[m].episodes, eps, e);
      incidents := incidents[m := incidents[m].(episodes := eps)];
      Attach(m, e, true);
    }

    method ReceiveRecovery(marker: Option<Marker>, d: Delivery, now: int) returns (r: Result<Option<Marker>>)
      requires d.event.kind == Recovery
      modifies this`events, this`runs, this`incidents
      ensures (J(), r) == ProcessRecovery(old(J()), marker, d, now)
    {
      var e := d.event;
      if marker.None? || marker.value !in incidents || e.episodeId !in incidents[marker.value].episodes
         || !SameSignal(incidents[marker.value].episodes[e.episodeId], e) {
        Store(d, None, RecoveryUnmatched, now);
        return Done(None);
      }
      var outcome := NoteRecovery(marker.value, e);
      Store(d, marker, outcome, now);
      return Done(marker);
    }

    /** Found an incident for the group. */
    method FoundIncident(e: Event) returns (m: Marker)
      modifies this`incidents, this`openGroups
      ensures m == Marker(e.group, e.eventId) && J() == IncidentJournal.Found(old(J()), e)
    {
      m := Marker(e.group, e.eventId);
      incidents := incidents[m := Incident(e.group, Pending, None, map[], 0, e.occurredAt, None, false, false, 0)];
      openGroups := openGroups[e.group := m];
    }

    /** The incident after a failure or escalation of its episode. */
    method NoteFault(m: Marker, e: Event)
      requires m in incidents && e.kind != Recovery
      modifies this`incidents
      ensures incidents == old(incidents)[m := Joined(old(incidents[m]), e)]
    {
      var eps := incidents[m].episodes;
      var episode := if e.episodeId in eps then eps[e.episodeId] else Episode(e.signal, e.source, false, 0);
      if e.sequence > episode.lastSequence && !episode.recovered {
        episode := episode.(lastSequence := e.sequence);
      }
      incidents := incidents[m := incidents[m].(episodes := eps[e.episodeId := episode])];
      Attach(m, e, true);
    }

    /** Join, store, and reassociate what was waiting for the episode. */
    method JoinFault(m: Marker, d: Delivery, env: Env)
      requires m in incidents && d.event.kind != Recovery
      modifies this`events, this`runs, this`incidents
      ensures J() == AdoptAll(Admit(old(J()), m, d, IncidentEvent, env.now), m, d.event, env.ids)
    {
      hide AdoptAll, Stored;
      NoteFault(m, d.event);
      Store(d, Some(m), IncidentEvent, env.now);
      AdoptRecoveries(m, d.event, env.ids);
    }

    method ReceiveFault(marker: Option<Marker>, d: Delivery, env: Env) returns (r: Result<Option<Marker>>)
      requires (marker.Some? ==> marker.value in incidents) && d.event.kind != Recovery
      modifies this`events, this`runs, this`incidents, this`openGroups
      ensures (J(), r) == ProcessFault(old(J()), marker, d, env)
    {
      hide Admit, AdoptAll;
      var e := d.event;
      var m: Marker;
      if marker.None? {
        if |incidents| >= MAX_INCIDENTS {
          return Failed(JournalCapacity);
        }
        m := FoundIncident(e);
      } else {
        m := marker.value;
      }
      var eps := incidents[m].episodes;
      if e.episodeId !in eps && |eps| >= MAX_EPISODES {
        return Failed(EpisodeCapacity);
      }
      if e.episodeId in eps && !SameSignal(eps[e.episodeId], e) {
        return Failed(EpisodeIdentityConflict);
      }
      JoinFault(m, d, env);
      return Done(Some(m));
    }

    method ReceiveFirst(d: Delivery, env: Env) returns (r: Result<Option<Marker>>)
      modifies this`events, this`runs, this`incidents, this`openGroups
      ensures (J(), r) == ProcessFirst(old(J()), d, env)
    {
      hide IncidentJournal.OpenIncident, ProcessFault, ProcessRecovery, Stored;
      ghost var start := J();
      var opening := OpenIncident(d.event.group, env);
      if opening.Failed? {
        return Failed(opening.error);
      }
      var holder := ClosedHolder(d.event, env.markers);
      if holder.Some? {
        Store(d, holder, ClosedEpisodeObservation, env.now);
        return Done(holder);
      }
      if d.event.kind == Recovery {
        r := ReceiveRecovery(opening.value, d, env.now);
      } else {
        OpeningIsRetained(start, d.event.group, env);
        r := ReceiveFault(opening.value, d, env);
      }
    }

    /** A delivery of an event the journal already stores. */
    method ReceiveAgain(d: Delivery, env: Env) returns (r: Result<Option<Marker>>)
      requires d.event.eventId in events
      modifies this`events, this`runs, this`incidents
      ensures (J(), r) == ProcessAgain(old(J()), d, env)
    {
      var previous := events[d.event.eventId];
      if previous.payload != d.event || previous.native.trigger != d.run.trigger {
        return Failed(EventIdentityConflict);
      }
      if d.bytes.Some? && previous.bytes.Some? && previous.bytes != d.bytes {
        return Failed(EventIdentityConflict);
      }
      if previous.runId.Some? && d.run.id.Some? && previous.runId != d.run.id && d.origin == OperatorOriginal {
        return Failed(RunIdentityConflict);
      }
      var known := previous.marker.Some? && previous.marker.value in incidents;
      if known && !env.authorized {
        return Failed(AuthorityRefused);
      }
      if d.origin == OperatorOriginal {
        var bound := previous.(bytes := d.bytes, origin := d.origin);
        if d.run.id.Some? {
          bound := bound.(runId := d.run.id, native := d.run, unresolved := UnverifiedReason(d.run));
        }
        events := events[d.event.eventId := bound];
      }
      if known {
        Attach(previous.marker.value, d.event, false);
      }
      if d.run.id.Some? {
        var noted := RunRecord(Some(d.event.eventId), previous.marker, DuplicateEvent, UnverifiedReason(d.run), env.now,
                               d.run);
        runs := runs[d.run.id.value := noted];
      }
      return Done(previous.marker);
    }

    /** `process` on the journal tables. */
    method Receive(d: Delivery, env: Env) returns (r: Result<Option<Marker>>)
      modifies this`events, this`runs, this`incidents, this`openGroups
      ensures (J(), r) == IncidentJournal.Process(old(J()), d, env)
    {
      hide ProcessAgain, ProcessFirst;
      if d.run.id.Some? && d.run.id.value in runs && runs[d.run.id.value].eventId.Some?
         && runs[d.run.id.value].eventId != Some(d.event.eventId) {
        return Failed(RunIdentityConflict);
      }
      if d.event.eventId in events {
        r := ReceiveAgain(d, env);
      } else {
        r := ReceiveFirst(d, env);
      }
    }

    /** What a delivery reads from outside. */
    method Read(e: Event) returns (env: Env)
      ensures CoversTables(env, J(), e)
      ensures cooperative ==> env.issueClosed.Some? && env.authorized
    {
      var now: int, readable: bool, closed: bool, authorized: bool := *, *, *, *;
      var markers := Listed(incidents.Keys);
      var ids := Listed(events.Keys + {e.eventId});
      return Env(now, if cooperative || readable then Some(closed) else None, cooperative || authorized, markers, ids);
    }

    /** `process`: one delivery, with whatever the issue tracker and the authority answer. */
    method Process(d: Delivery) returns (r: Result<Option<Marker>>, ghost env: Env)
      requires Valid() && sys.progress.Idle? && d.event in universe && Authentic(d, contents)
      modifies this`events, this`runs, this`incidents, this`openGroups, this`sys, this`past, this`handled
      ensures Valid() && Enabled(old(sys), Deliver(d, env)) && sys == Effect(old(sys), Deliver(d, env))
      ensures past == old(past) + [Deliver(d, env)] && sys.progress.Idle?
      ensures r == IncidentJournal.Process(old(sys).mem.j, d, env).1 && (r.Failed? ==> Excused(r.error))
      ensures ReceivedEvents.Answered(old(J()), J(), r, d, env)
      ensures handled == if r.Done? && d.run.id.Some? then old(handled) + {d.run.id.value} else old(handled)
      ensures cooperative ==> Standing(env)
    {
      hide SysInv, SenderLaw, RunsHeard, AfterDelivery, IncidentJournal.Process, RunConflict, Traced, Enabled, Effect,
        CoversTables, Authentic, ReceivedEvents.Answered;
      var reply := Read(d.event);
      env := reply;
      if IncidentJournal.Process(sys.mem.j, d, env).1.Failed? {
        ProcessRefuses(sys.mem.j, d, env);
      }
      DeliveryHears(sys.mem, d, env, contents);
      Delivers(past, sys, d, env, universe);
      TracedAnswers(past, sys, universe, d, env);
      r := Receive(d, reply);
      sys, past := Effect(sys, Deliver(d, env)), past + [Deliver(d, env)];
      if r.Done? && d.run.id.Some? {
        handled := handled + {d.run.id.value};
      }
    }

    // ---- advance -------------------------------------------------------------------------------

    /** A cooperative tracker can always be read, and then the authority stands. */
    function Given(r: Replies): Replies {
      if cooperative then r.(granted := true, readable := true) else r
    }

    lemma GivenKeeps(r: Replies, p: Promise)
      ensures Keeps(r, p) ==> Keeps(Given(r), p)
      ensures cooperative ==> Given(r).granted && Given(r).readable
    {
    }

    ghost predicate AtWork(m: Marker)
      reads this
    {
      m in incidents && !incidents[m].closed && sys.progress.Idle?
    }

    ghost function Now(): Moment
      reads this
    {
      Moment(past, sys, handled, durablyHandled)
    }

    /** `save` in the middle of an incident's lifecycle. */
    method SaveFor(m: Marker) returns (error: Option<Error>)
      requires Valid() && m in incidents && !incidents[m].closed
      modifies this
      ensures Valid() && Forth(old(Now()), Now(), m) && creates == old(creates) && landed == old(landed)
      ensures m in incidents && incidents[m] == old(incidents[m])
      ensures error.None? ==>
                sys.disk == sys.mem && sys.progress == AfterWriting(old(sys).progress) && durablyHandled == handled
      ensures error.None? || (error == Some(JournalCapacity) && !WithinLimits(old(sys).mem.j))
    {
      hide SysInv, SenderLaw, RunsHeard, Prunes, Traced, SavedAs, Obligations, WithinLimits, Touches, Discarding;
      ghost var was := sys;
      var ok := Save();
      OpenSurvives(was.mem.j, J(), m);
      SavingIsOnward(was, J());
      SavingTouches(was, J(), m);
      return if ok then None else Some(JournalCapacity);
    }

    /** Update one incident as a step of its lifecycle says. */
    method SetIncident(m: Marker, inc: Incident, ghost a: Action)
      requires Valid() && m in incidents && Enabled(sys, a) && Changes(sys, a, m, inc)
      modifies this`incidents, this`sys, this`past
      ensures Valid() && sys == Effect(old(sys), a) && Forth(old(Now()), Now(), m)
      ensures incidents == old(incidents)[m := inc]
    {
      hide SysInv, SenderLaw, RunsHeard, Enabled, Effect, Traced, Touches;
      Steps(past, sys, a, universe);
      ChangeHears(sys, a, m, inc, contents);
      incidents := incidents[m := inc];
      sys, past := Effect(sys, a), past + [a];
    }

    /** The issue carrying the marker.  The tracker may be unreadable, but never hides an issue. */
    method FindMarker(m: Marker, readable: bool) returns (found: Finding)
      ensures found.Unproven? <==> !readable
      ensures found.Absent? <==> readable && landed[m] == 0
      ensures found.Issue? <==> readable && landed[m] == 1
    {
      var issue: nat := *;
      if !readable {
        return Unproven;
      }
      if landed[m] == 0 {
        return Absent;
      }
      return if landed[m] == 1 then Issue(issue) else Several;
    }

    /** A create asked for earlier may take effect at any time. */
    method Land(m: Marker)
      requires Valid() && landed[m] < creates[m]
      modifies this`landed, this`sys, this`past
      ensures Valid() && Forth(old(Now()), Now(), m) && landed == old(landed) + multiset{m}
      ensures sys == old(sys).(landed := landed)
    {
      hide SysInv, SenderLaw, RunsHeard, Traced, Forth, Shrinks, Touches;
      ghost var start := Now();
      Steps(past, sys, IncidentRuns.Land(m), universe);
      landed := landed + multiset{m};
      sys, past := Effect(sys, IncidentRuns.Land(m)), past + [IncidentRuns.Land(m)];
      ShrinksSelf(sys.mem.j);
      LandingTouches(start.sys, m);
      StepsForth(start, Now(), IncidentRuns.Land(m), m);
    }

    /** An incident whose create is uncertain is only ever looked up. */
    method Resume(m: Marker, r: Replies) returns (error: Option<Error>)
      requires Valid() && AtWork(m) && incidents[m].phase == Uncertain
      modifies this
      ensures Valid() && Forth(old(Now()), Now(), m) && creates == old(creates)
      ensures error.None? ==> AtWork(m) && Synced()
      ensures error.None? ==>
                Opens(old(incidents[m]), incidents[m], old(landed)[m] > 0, r) && incidents[m].phase != Pending
      ensures error.None? || (error == Some(JournalCapacity) && !WithinLimits(old(sys).mem.j))
    {
      hide SysInv, SenderLaw, RunsHeard, Traced, Forth, WithinLimits;
      ghost var start := Now();
      StaysPut(start, m);
      var found := FindMarker(m, r.readable);
      OneIssue(sys, universe, m);
      if found.Issue? {
        TakeIssue(m, found.issue);
      }
      ghost var middle := Now();
      ForthStaysSmall(start, middle, m);
      error := SaveFor(m);
      ForthTrans(start, middle, Now(), m);
    }

    /** The external create, of which nothing is known at first. */
    method Request(m: Marker)
      requires Valid() && HasPhase(sys.mem.j, m, Uncertain) && sys.progress == Recorded(m)
      modifies this`creates, this`sys, this`past
      ensures Valid() && Forth(old(Now()), Now(), m) && AtWork(m) && creates == old(creates) + multiset{m}
    {
      hide SysInv, SenderLaw, RunsHeard, Traced, Forth, Shrinks, Touches;
      ghost var start := Now();
      Steps(past, sys, Create(m), universe);
      creates := creates + multiset{m};
      sys, past := Effect(sys, Create(m)), past + [Create(m)];
      ShrinksSelf(sys.mem.j);
      CreatingTouches(start.sys, m);
      StepsForth(start, Now(), Create(m), m);
    }

    /** The reply to a create that took effect. */
    method Reply(m: Marker)
      requires Valid() && AtWork(m) && incidents[m].phase == Uncertain && landed[m] > 0
      modifies this`incidents, this`sys, this`past
      ensures Valid() && Forth(old(Now()), Now(), m) && AtWork(m) && incidents[m].issueId.Some?
      ensures incidents[m] == old(incidents[m]).(phase := Created, issueId := incidents[m].issueId)
    {
      hide SysInv, SenderLaw, RunsHeard, Traced, Forth, Shrinks, Touches;
      var issue: nat := *;
      SetIncident(m, incidents[m].(issueId := Some(issue), phase := Created), Learn(m, issue));
    }

    /** The create may take effect now, later or never, and its reply may be lost. */
    method Ask(m: Marker, lands: bool, answers: bool)
      requires Valid() && HasPhase(sys.mem.j, m, Uncertain) && sys.progress == Recorded(m) && landed[m] == 0
      modifies this
      ensures Valid() && Forth(old(Now()), Now(), m) && AtWork(m)
      ensures creates == old(creates) + multiset{m}
      ensures if lands && answers then
                incidents[m].issueId.Some?
                && incidents[m] == old(incidents[m]).(phase := Created, issueId := incidents[m].issueId)
              else incidents[m] == old(incidents[m])
    {
      hide Valid, SysInv, Forth;
      Shown();
      ghost var start := Now();
      Request(m);
      if !lands {
        return;
      }
      ghost var asked := Now();
      Land(m);
      ghost var landing := Now();
      ForthTrans(start, asked, landing, m);
      if answers {
        Reply(m);
        ForthTrans(start, landing, Now(), m);
      }
    }

    /** The tracker was read and no issue carries the marker. */
    method SeeAbsent(m: Marker)
      requires Valid() && AtWork(m) && incidents[m].phase == Pending && landed[m] == 0
      modifies this`sys, this`past
      ensures Valid() && Forth(old(Now()), Now(), m)
      ensures HasPhase(sys.mem.j, m, Pending) && sys == old(sys).(progress := SawAbsent(m))
    {
      hide SysInv, SenderLaw, RunsHeard, Traced, Forth, Shrinks, Touches;
      ghost var start := Now();
      Steps(past, sys, FindAbsent(m), universe);
      sys, past := Effect(sys, FindAbsent(m)), past + [FindAbsent(m)];
      ShrinksSelf(sys.mem.j);
      SeeingTouches(start.sys, m);
      StepsForth(start, Now(), FindAbsent(m), m);
    }

    /** An issue carries the marker. */
    method TakeIssue(m: Marker, issue: nat)
      requires Valid() && AtWork(m) && landed[m] > 0
      requires incidents[m].phase == Pending || incidents[m].phase == Uncertain
      modifies this`incidents, this`sys, this`past
      ensures Valid() && Forth(old(Now()), Now(), m) && AtWork(m)
      ensures incidents[m] == old(incidents[m]).(issueId := Some(issue), phase := Created)
    {
      hide SysInv, SenderLaw, RunsHeard, Traced, Forth;
      SetIncident(m, incidents[m].(issueId := Some(issue), phase := Created), FindPresent(m, issue));
    }

    /** Record the intent, save it, and only then ask for the issue. */
    method CreateIssue(m: Marker, lands: bool, answers: bool) returns (error: Option<Error>)
      requires Valid() && HasPhase(sys.mem.j, m, Pending) && sys.progress == SawAbsent(m) && landed[m] == 0
      modifies this
      ensures Valid() && Forth(old(Now()), Now(), m)
      ensures creates == old(creates) || creates == old(creates) + multiset{m}
      ensures error.None? ==> AtWork(m) && Synced() && creates == old(creates) + multiset{m}
      ensures error.None? ==>
                && incidents[m] == old(incidents[m]).(phase := incidents[m].phase, issueId := incidents[m].issueId,
                                                      attempts := old(incidents[m]).attempts + 1)
                && (if lands && answers then incidents[m].phase == Created && incidents[m].issueId.Some?
                    else incidents[m].phase == Uncertain && incidents[m].issueId == old(incidents[m]).issueId)
      ensures error.None? || (error == Some(JournalCapacity) && !WithinLimits(old(sys).mem.j))
    {
      hide SysInv, SenderLaw, RunsHeard, Traced, Forth, WithinLimits;
      ghost var start := Now();
      SetIncident(m, incidents[m].(phase := Uncertain, attempts := incidents[m].attempts + 1), Intend(m));
      ghost var intended := Now();
      ForthStaysSmall(start, intended, m);
      error := SaveFor(m);
      ghost var recorded := Now();
      ForthTrans(start, intended, recorded, m);
      if error.Some? {
        return;
      }
      Ask(m, lands, answers);
      ghost var asked := Now();
      ForthTrans(start, recorded, asked, m);
      ForthStaysSmall(start, asked, m);
      error := SaveFor(m);
      ForthTrans(start, asked, Now(), m);
    }

    /** A pending incident is looked up first, and created only when no issue carries its marker. */
    method Begin(m: Marker, r: Replies) returns (error: Option<Error>)
      requires Valid() && AtWork(m) && incidents[m].phase == Pending
      modifies this
      ensures Valid() && Forth(old(Now()), Now(), m)
      ensures creates == old(creates) || (creates == old(creates) + multiset{m} && old(landed)[m] == 0)
      ensures error.None? ==> AtWork(m) && Synced() && r.readable
      ensures error.None? ==> (creates == old(creates) + multiset{m} <==> old(landed)[m] == 0)
      ensures error.None? ==>
                Opens(old(incidents[m]), incidents[m], old(landed)[m] > 0, r) && incidents[m].phase != Pending
      ensures error.None? || (error == Some(DiscoveryIncomplete) && !r.readable)
              || (error == Some(JournalCapacity) && !WithinLimits(old(sys).mem.j))
    {
      hide Valid, SysInv, Forth, WithinLimits;
      Shown();
      ghost var start := Now();
      StaysPut(start, m);
      var found := FindMarker(m, r.readable);
      OneIssue(sys, universe, m);
      if found.Unproven? {
        return Some(DiscoveryIncomplete);
      }
      if found.Issue? {
        TakeIssue(m, found.issue);
        Shown();
        ghost var middle := Now();
        ForthStaysSmall(start, middle, m);
        error := SaveFor(m);
        ForthTrans(start, middle, Now(), m);
      } else {
        SeeAbsent(m);
        ghost var middle := Now();
        ForthStaysSmall(start, middle, m);
        error := CreateIssue(m, r.lands, r.answers);
        ForthTrans(start, middle, Now(), m);
      }
    }

    /** Write the incident's metadata to its issue: what is read back tells whether it is there. */
    method Index(m: Marker, indexed: bool) returns (error: Option<Error>)
      requires Valid() && AtWork(m) && (incidents[m].phase == Created || incidents[m].phase == Indexed
                                        || incidents[m].phase == Admitted)
      modifies this
      ensures Valid() && Forth(old(Now()), Now(), m) && creates == old(creates)
      ensures error.None? ==> AtWork(m) && Synced()
      ensures error.None? ==>
                incidents[m] == if !indexed then old(incidents[m])
                                else if old(incidents[m]).phase == Created then
                                  old(incidents[m]).(phase := Indexed, metadataDirty := false)
                                else old(incidents[m]).(metadataDirty := false)
      ensures error.None? || (error == Some(JournalCapacity) && !WithinLimits(old(sys).mem.j))
    {
      hide SysInv, SenderLaw, RunsHeard, Traced, Forth, WithinLimits;
      ghost var start := Now();
      StaysPut(start, m);
      if indexed {
        var phase := if incidents[m].phase == Created then Indexed else incidents[m].phase;
        SetIncident(m, incidents[m].(phase := phase, metadataDirty := false), Move(m, phase, false));
      }
      ghost var middle := Now();
      ForthStaysSmall(start, middle, m);
      error := SaveFor(m);
      ForthTrans(start, middle, Now(), m);
    }

    /** Hand the issue to the coordinator. */
    method Assign(m: Marker, taken: bool) returns (error: Option<Error>)
      requires Valid() && AtWork(m) && incidents[m].phase == Indexed
      modifies this
      ensures Valid() && Forth(old(Now()), Now(), m) && creates == old(creates)
      ensures error.None? ==> AtWork(m) && Synced()
      ensures error.None? ==>
                incidents[m] == if taken then old(incidents[m]).(phase := AdmissionPending) else old(incidents[m])
      ensures error.None? || (error == Some(JournalCapacity) && !WithinLimits(old(sys).mem.j))
    {
      hide SysInv, SenderLaw, RunsHeard, Traced, Forth, WithinLimits;
      ghost var start := Now();
      StaysPut(start, m);
      if taken {
        SetIncident(m, incidents[m].(phase := AdmissionPending), Move(m, AdmissionPending, incidents[m].metadataDirty));
      }
      ghost var middle := Now();
      ForthStaysSmall(start, middle, m);
      error := SaveFor(m);
      ForthTrans(start, middle, Now(), m);
    }

    /** Admission needs a native task of the coordinator, and is written to the metadata. */
    method AdmitTask(m: Marker, linked: bool, stored: bool) returns (error: Option<Error>)
      requires Valid() && AtWork(m) && incidents[m].phase == AdmissionPending
      modifies this
      ensures Valid() && Forth(old(Now()), Now(), m) && creates == old(creates)
      ensures error.None? ==> AtWork(m) && Synced()
      ensures error.None? ==>
                incidents[m] == if linked then old(incidents[m]).(phase := Admitted, metadataDirty := !stored)
                                else old(incidents[m])
      ensures error.None? || (error == Some(JournalCapacity) && !WithinLimits(old(sys).mem.j))
    {
      hide SysInv, SenderLaw, RunsHeard, Traced, Forth, WithinLimits;
      ghost var start := Now();
      StaysPut(start, m);
      if linked {
        SetIncident(m, incidents[m].(phase := Admitted, metadataDirty := !stored), Move(m, Admitted, !stored));
      }
      ghost var middle := Now();
      ForthStaysSmall(start, middle, m);
      error := SaveFor(m);
      ForthTrans(start, middle, Now(), m);
    }

    /** From `created` on, as far as the replies allow. */
    method AdvanceCreated(m: Marker, r: Replies) returns (error: Option<Error>)
      requires Valid() && AtWork(m) && incidents[m].phase != Pending
      modifies this
      ensures Valid() && Forth(old(Now()), Now(), m) && creates == old(creates)
      ensures error.None? ==> AtWork(m) && (old(Synced()) ==> Synced())
      ensures error.None? ==>
                if old(incidents[m]).phase == Uncertain then incidents[m] == old(incidents[m])
                else Climbs(old(incidents[m]), incidents[m], r)
      ensures error.None? || (error == Some(JournalCapacity) && !WithinLimits(old(sys).mem.j))
    {
      hide Valid, Onward, Lifecycle, Forth, WithinLimits;
      ghost var start := Now();
      StaysPut(start, m);
      error := None;
      var phase := incidents[m].phase;
      if phase == Created || ((phase == Indexed || phase == Admitted) && incidents[m].metadataDirty) {
        error := Index(m, r.indexed);
        if error.Some? {
          return;
        }
      }
      ghost var indexed := Now();
      ForthStaysSmall(start, indexed, m);
      if incidents[m].phase == Indexed {
        error := Assign(m, r.taken);
        ForthTrans(start, indexed, Now(), m);
        if error.Some? {
          return;
        }
      }
      ghost var taken := Now();
      ForthStaysSmall(start, taken, m);
      if incidents[m].phase == AdmissionPending {
        error := AdmitTask(m, r.linked, r.stored);
        ForthTrans(start, taken, Now(), m);
      }
    }

    /** `advance`: one incident exactly as far as the replies allow, and nothing without authority.  A create is
        asked for exactly when a pending incident has no issue; a pending incident does not stay pending, it
        is indexed iff its metadata was stored, handed over iff the assignment was taken, and admitted iff
        a task is linked; its metadata stays to be written iff the last read-back did not agree. */
    method Advance(m: Marker, replies: Replies) returns (error: Option<Error>)
      requires Valid() && AtWork(m)
      modifies this
      ensures Valid() && Forth(old(Now()), Now(), m)
      ensures error.None? ==> AtWork(m) && (old(Synced()) ==> Synced())
      ensures error.None? ==> Advances(old(incidents[m]), incidents[m], old(landed)[m] > 0, Given(replies))
      ensures !Given(replies).granted ==> error.None? && Now() == old(Now())
      ensures creates == old(creates) || (creates == old(creates) + multiset{m} && old(landed)[m] == 0
                                          && old(incidents[m]).phase == Pending)
      ensures Given(replies).granted && error.None? ==>
                (creates == old(creates) + multiset{m} <==> old(incidents[m]).phase == Pending && old(landed)[m] == 0)
      ensures error.None? || (error == Some(JournalCapacity) && !WithinLimits(old(sys).mem.j))
              || (error == Some(DiscoveryIncomplete) && old(incidents[m]).phase == Pending && !Given(replies).readable)
    {
      hide Valid, Forth, WithinLimits, Opens, Climbs, Advances;
      ghost var start := Now();
      StaysPut(start, m);
      NothingIsAdvanced(incidents[m], landed[m] > 0, Given(replies));
      error := None;
      var r := Given(replies);
      if !r.granted {
        return;
      }
      ghost var was, there := incidents[m], landed[m] > 0;
      if incidents[m].phase == Uncertain {
        error := Resume(m, r);
      } else if incidents[m].phase == Pending {
        error := Begin(m, r);
      }
      if error.Some? {
        return;
      }
      ghost var created, mid := Now(), incidents[m];
      ForthStaysSmall(start, created, m);
      error := AdvanceCreated(m, r);
      ForthTrans(start, created, Now(), m);
      if error.None? {
        OpensThenClimbs(was, mid, incidents[m], there, r);
      }
    }

    // ---- reconcile -----------------------------------------------------------------------------

    predicate Configured(row: Row) {
      row.webhook && row.trigger in triggers
    }

    /** A configured webhook run was entered into the journal; if it carried a valid event of a
        configured group, that event was delivered. */
    ghost predicate Settled(row: Row, delivered: set<Event>, entered: set<nat>) {
      Configured(row) ==>
        row.id in entered && (row.payload.Some? && row.payload.value.group in serviceGroups ==>
                              row.payload.value in delivered)
    }

    /** The native payload of a run never changes, and what it carries some host sent. */
    ghost predicate Genuine(rows: seq<Row>) {
      forall i | 0 <= i < |rows| :: contents(rows[i].id) == rows[i].payload
          && (rows[i].payload.Some? ==> rows[i].payload.value in universe)
    }

    /** A run entered into the journal without an event, with the obligation to look again. */
    method NoteRun(row: Row, outcome: Outcome, reason: Reason) returns (ghost noted: RunRecord)
      requires Valid() && sys.progress.Idle?
      modifies this`runs, this`sys, this`past, this`handled
      ensures Valid() && Grows(old(Now()), Now()) && sys.progress.Idle? && row.id in handled
      ensures noted == RunRecord(None, None, outcome, Some(reason), noted.at, NativeOf(row))
      ensures sys.mem.j == old(sys).mem.j.(runs := old(sys).mem.j.runs[row.id := noted])
      ensures creates == old(creates) && landed == old(landed)
    {
      hide SysInv, SenderLaw, Traced, RunsHeard, Grows, Enabled, Effect, NativeOf;
      ghost var start := Now();
      var now: int := *;
      var record := RunRecord(None, None, outcome, Some(reason), now, NativeOf(row));
      ghost var step := IncidentRuns.NoteRun(row.id, record);
      noted := record;
      NotingGrows(start, row.id, record, contents);
      Steps(past, sys, step, universe);
      runs, sys, past, handled := runs[row.id := record], Effect(sys, step), past + [step], handled + {row.id};
    }

    /** The event an operator or a runtime receipt bound to the run. */
    method Imported(id: nat) returns (found: Option<EventRecord>)
      ensures found.Some? ==>
                exists k :: k in events && events[k] == found.value && events[k].origin != NativePayload
                            && events[k].runId == Some(id)
      ensures found.None? ==> forall k | k in events && events[k].runId == Some(id) :: events[k].origin == NativePayload
    {
      found := None;
      var ids := Listed(events.Keys);
      for i := 0 to |ids|
        invariant forall k | k in ids[..i] && k in events && events[k].runId == Some(id) ::
                    events[k].origin == NativePayload
      {
        if ids[i] in events && events[ids[i]].runId == Some(id) && events[ids[i]].origin != NativePayload {
          return Some(events[ids[i]]);
        }
      }
    }

    /** There is room for this many more runs, and nothing stored contradicts them. */
    ghost predicate Fits(n: nat)
      reads this
    {
      Fit(sys.mem.j, n, contents, channel)
    }

    /** A configured run carries its event through the event's trigger. */
    ghost predicate Arrives(row: Row) {
      Configured(row) && row.payload.Some? ==> row.trigger == channel(row.payload.value.eventId)
    }

    ghost predicate AllArrive(rows: seq<Row>) {
      forall i | 0 <= i < |rows| :: Arrives(rows[i])
    }

    /** Save between two steps of the whole reconciliation. */
    method SaveAll() returns (error: Option<Error>)
      requires Valid() && sys.progress.Idle?
      modifies this
      ensures Valid() && Grows(old(Now()), Now()) && handled == old(handled)
              && sys.mem.delivered == old(sys).mem.delivered
      ensures error.None? ==> Synced()
      ensures error.Some? ==> Excused(error.value)
      ensures Shrinks(old(sys).mem.j, sys.mem.j) && (WithinLimits(old(sys).mem.j) ==> error.None?)
      ensures DropsClosed(old(incidents), incidents) && creates == old(creates) && landed == old(landed)
      ensures forall id | id in old(runs) && old(runs[id]).unresolved.Some? :: id in runs && runs[id] == old(runs[id])
    {
      hide SysInv, SenderLaw, RunsHeard, Prunes, Traced, SavedAs, Obligations, WithinLimits, Tended, Discarding,
        DropsClosed;
      ghost var was := sys;
      var ok := Save();
      SavingIsOnward(was, J());
      PruningDropsClosed(was.mem.j, J());
      PruningKeepsOwing(was.mem.j, J());
      LeavingTends(was, sys, J(), universe);
      return if ok then None else Some(JournalCapacity);
    }

    /** What `process` is given for a run. */
    function DeliveryOf(row: Row, event: Event, imported: Option<EventRecord>): Delivery {
      Delivery(NativeOf(row), event, if imported.Some? then imported.value.origin else NativePayload,
               if imported.Some? then imported.value.bytes else None)
    }

    lemma DeliversRow(row: Row, event: Event, imported: Option<EventRecord>)
      requires contents(row.id) == row.payload && (row.payload.Some? ==> row.payload == Some(event))
      ensures var d := DeliveryOf(row, event, imported);
              && d.event == event && d.run.id == Some(row.id) && Authentic(d, contents)
              && (imported.None? && row.payload.Some? && Arrives(row) && Configured(row) ==>
                    Native(d, contents, channel))
    {
    }

    /** Deliver one event and save. */
    method TakeEvent(d: Delivery, ghost n: nat)
      returns (error: Option<Error>, answer: Option<Marker>, ghost k: Journal, ghost env: Env)
      requires Valid() && Synced() && d.event in universe && Authentic(d, contents)
      modifies this
      ensures Valid() && Grows(old(Now()), Now())
      ensures error.None? ==>
                && Synced() && d.event in sys.mem.delivered
                && (d.run.id.Some? ==> d.run.id.value in handled)
      ensures error.None? ==>
                && ReceivedEvents.Answered(old(J()), k, Done(answer), d, env) && LivesOn(old(J()), k)
                && DropsClosed(k.incidents, incidents) && creates == old(creates) && landed == old(landed)
      ensures error.Some? ==> Excused(error.value)
      ensures cooperative && Native(d, contents, channel) && old(Fits(n + 1)) ==> error.None? && Fits(n)
    {
      hide SysInv, SenderLaw, RunsHeard, Traced, IncidentJournal.Process, Onward, Fit, Native, Shrinks, Enabled, Effect,
        WithinLimits, Tended, ReceivedEvents.Answered, LivesOn, DropsClosed, Authentic;
      ghost var start := Now();
      var r, reading := Process(d);
      env, k, answer := reading, J(), if r.Done? then r.value else None;
      ghost var processed := Now();
      DeliveryGrows(start, processed, d, env, universe);
      ghost var fit := cooperative && Native(d, contents, channel) && Fit(start.sys.mem.j, n + 1, contents, channel);
      if fit {
        ProcessFits(start.sys, d, env, n, universe, contents, channel);
        FitIsWithin(sys.mem.j, n, contents, channel);
      }
      if r.Failed? {
        return Some(r.error), answer, k, env;
      }
      error := SaveAll();
      if fit {
        ShrinksStaysFit(processed.sys.mem.j, sys.mem.j, n, contents, channel);
      }
      GrowsTrans(start, processed, Now());
    }

    /** Advance the incident an event has just touched. */
    method AdvanceTouched(m: Marker, replies: Replies, ghost n: nat, ghost stuck: set<Marker>, ghost p: Promise)
      returns (error: Option<Error>)
      requires Valid() && Synced() && AtWork(m)
      modifies this
      ensures Valid() && Grows(old(Now()), Now())
      ensures error.None? ==>
                && Synced() && AtWork(m)
                && Advances(old(incidents[m]), incidents[m], old(landed)[m] > 0, Given(replies))
      ensures error.None? && cooperative && Keeps(replies, p) && old(OthersInHand(sys, Some(m), stuck, p)) ==>
                AllInHand(sys, stuck, p)
      ensures error.Some? ==> Excused(error.value)
      ensures cooperative && old(Fits(n)) ==> error.None? && Fits(n)
    {
      hide Valid, SysInv, Grows, Fit, WithinLimits, OthersInHand, AllInHand, Keeps, Advances, Forth, Given;
      Shown();
      ghost var start := Now();
      if Fits(n) {
        FitIsWithin(sys.mem.j, n, contents, channel);
      }
      GivenKeeps(replies, p);
      error := Advance(m, replies);
      Shown();
      ForthGrows(start, Now(), m, universe);
      ForthStaysFit(start, Now(), m, n, contents, channel);
      if error.None? && cooperative && Keeps(replies, p) && OthersInHand(start.sys, Some(m), stuck, p) {
        ForthTouches(start, Now(), m);
        AdvancedStaysInHand(start.sys, sys, m, Given(replies), stuck, p);
      }
    }

    /** A run with a valid event, from its own payload or from an import: the event is delivered and saved, and
        the incident it belongs to advanced if that is open. */
    method DeliverRun(row: Row, event: Event, imported: Option<EventRecord>, replies: Replies, ghost n: nat,
                      ghost stuck: set<Marker>, ghost p: Promise)
      returns (error: Option<Error>, ghost k: Journal, ghost answer: Option<Marker>, ghost env: Env)
      requires Valid() && Synced() && contents(row.id) == row.payload && event in universe
      requires row.payload.Some? ==> row.payload == Some(event)
      modifies this
      ensures Valid() && Grows(old(Now()), Now())
      ensures error.None? ==> Synced() && row.id in handled && event in sys.mem.delivered
      ensures error.None? ==>
                ReceivedEvents.Answered(old(J()), k, Done(answer), DeliveryOf(row, event, imported), env)
      ensures error.None? && answer.Some? && answer.value in k.incidents && !k.incidents[answer.value].closed ==>
                && answer.value in incidents && !incidents[answer.value].closed
                && Advances(k.incidents[answer.value], incidents[answer.value], old(landed)[answer.value] > 0,
                            Given(replies))
      ensures error.None? && cooperative && Keeps(replies, p) && old(AllInHand(sys, stuck, p)) ==>
                AllInHand(sys, stuck, p)
      ensures error.Some? ==> Excused(error.value)
      ensures cooperative && imported.None? && row.payload.Some? && Configured(row) && Arrives(row) && old(Fits(n + 1))
              ==>
                error.None? && Fits(n)
    {
      hide Valid, SysInv, Grows, Fit, Native, ReceivedEvents.Answered, LivesOn, AllInHand, OthersInHand, Keeps,
        Advances, DropsClosed, Given, DeliveryOf, Arrives, Configured, Authentic, Excused;
      Shown();
      ghost var start := Now();
      var d := DeliveryOf(row, event, imported);
      DeliversRow(row, event, imported);
      var taken: Option<Marker>;
      error, taken, k, env := TakeEvent(d, n);
      answer := taken;
      if error.Some? {
        return;
      }
      Shown();
      ghost var saved := Now();
      ClosedDropsOpen(k.incidents, incidents);
      if AllInHand(start.sys, stuck, p) {
        ArrivalInHand(start.sys, k, sys, answer, d, env, stuck, p, universe);
      }
      if taken.Some? && taken.value in incidents && !incidents[taken.value].closed {
        error := AdvanceTouched(taken.value, replies, n, stuck, p);
        GrowsTrans(start, saved, Now());
        GrowthKeeps(saved, Now(), event, row.id);
      } else if AllInHand(start.sys, stuck, p) {
        RestInHand(sys, answer, stuck, p);
      }
    }

    /** A configured run whose native status is neither admitted nor refused. */
    predicate Waits(row: Row) {
      Configured(row) && row.admission == RunUnverified
    }

    /** Entered already, and nothing about it is in question. */
    predicate Skips(row: Row)
      reads this
    {
      && row.id in runs && runs[row.id].outcome != InvalidPayload && runs[row.id].outcome != PendingRun
      && runs[row.id].unresolved.None?
    }

    /** The run is entered without an event, with what is owed for it. */
    ghost predicate Noted(row: Row, outcome: Outcome, reason: Reason)
      reads this
    {
      row.id in runs && runs[row.id] == RunRecord(None, None, outcome, Some(reason), runs[row.id].at, NativeOf(row))
    }

    /** The run carries no event of a configured group, and none was imported for it. */
    ghost predicate Unserved(row: Row)
      reads this
    {
      if row.payload.Some? then row.payload.value.group !in serviceGroups
      else forall k | k in events && events[k].runId == Some(row.id) :: events[k].origin == NativePayload
    }

    /** One run of the discovered prefix: skipped when it was entered and nothing about it is in question,
        otherwise noted as pending or without a usable payload, or delivered. */
    method ReceiveRun(row: Row, replies: Replies, ghost n: nat, ghost stuck: set<Marker>, ghost p: Promise)
      returns (error: Option<Error>, pending: bool)
      requires Valid() && Synced() && Genuine([row])
      modifies this
      ensures Valid() && Grows(old(Now()), Now())
      ensures error.None? ==> Synced() && (pending || Settled(row, sys.mem.delivered, handled))
      ensures pending <==> Waits(row) && !old(Skips(row))
      ensures old(Skips(row)) ==> error.None? && Now() == old(Now())
      ensures error.None? && pending ==> Noted(row, PendingRun, NativePending)
      ensures error.None? && Configured(row) && !old(Skips(row)) && !pending && old(Unserved(row)) ==>
                Noted(row, InvalidPayload, OriginalPayloadUnavailable)
      ensures error.Some? ==> Excused(error.value)
      ensures !Configured(row) ==> error.None? && !pending && Now() == old(Now())
      ensures cooperative && Arrives(row) && old(Fits(n + 1)) ==> error.None? && Fits(n)
      ensures error.None? && cooperative && Keeps(replies, p) && old(AllInHand(sys, stuck, p)) ==>
                AllInHand(sys, stuck, p)
    {
      hide SysInv, SenderLaw, Traced, Grows, Onward, Fit, AllInHand, Keeps, ReceivedEvents.Answered, Advances;
      assert [row][0] == row;
      ghost var start := Now();
      StaysGrown(start);
      error, pending := None, false;
      if Fit(sys.mem.j, n + 1, contents, channel) {
        FitIsWithin(sys.mem.j, n + 1, contents, channel);
        FitHasNoImports(sys.mem.j, n + 1, contents, channel);
      }
      if !Configured(row) || Skips(row) {
        return;
      }
      if row.admission == RunUnverified {
        error := NoteAndSave(row, PendingRun, NativePending, n, stuck, p);
        return error, true;
      }
      var imported := Imported(row.id);
      if imported.Some? && row.payload.Some? && imported.value.payload != row.payload.value {
        return Some(EventIdentityConflict), false;
      }
      var event := if row.payload.None? && imported.Some? then Some(imported.value.payload) else row.payload;
      if event.None? || event.value.group !in serviceGroups {
        error := NoteAndSave(row, InvalidPayload, OriginalPayloadUnavailable, n, stuck, p);
      } else {
        ImportsWereSent(sys, universe);
        ghost var k, answer, env;
        error, k, answer, env := DeliverRun(row, event.value, imported, replies, n, stuck, p);
      }
    }

    method NoteAndSave(row: Row, outcome: Outcome, reason: Reason, ghost n: nat, ghost stuck: set<Marker>,
                       ghost p: Promise)
      returns (error: Option<Error>)
      requires Valid() && Synced()
      modifies this
      ensures Valid() && Grows(old(Now()), Now())
      ensures error.None? ==> Synced() && row.id in handled
      ensures error.Some? ==> Excused(error.value)
      ensures error.None? ==> Noted(row, outcome, reason)
      ensures old(Fits(n + 1)) ==> error.None? && Fits(n)
      ensures old(AllInHand(sys, stuck, p)) ==> AllInHand(sys, stuck, p)
    {
      hide SysInv, SenderLaw, Traced, Onward, Fit, Shrinks, WithinLimits, AllInHand, DropsClosed, Tended, RunsHeard,
        NativeOf;
      ghost var start := Now();
      ghost var record := NoteRun(row, outcome, reason);
      ghost var noted := Now();
      if Fit(start.sys.mem.j, n + 1, contents, channel) {
        NotingLeavesRoom(start.sys.mem.j, row.id, record, n, contents, channel);
        FitIsWithin(sys.mem.j, n, contents, channel);
      }
      error := SaveAll();
      ShrinksStaysFit(noted.sys.mem.j, sys.mem.j, n, contents, channel);
      GrowsTrans(start, noted, Now());
      ClosedDropsOpen(start.sys.mem.j.incidents, incidents);
      FewerInHand(start.sys, sys, stuck, p);
    }

    /** The replies for each incident as they come. */
    function AllGiven(replies: Marker -> Replies): Marker -> Replies {
      (m: Marker) => Given(replies(m))
    }

    /** Take every open incident as far as it goes. */
    method AdvanceAll(opening: Marker -> Replies, ghost n: nat) returns (error: Option<Error>)
      requires Valid() && Synced()
      modifies this
      ensures Valid() && Grows(old(Now()), Now())
      ensures error.None? ==> Synced() && Shrinks(old(sys).mem.j, sys.mem.j)
      ensures error.None? ==> Progressed(old(sys), sys, old(sys).mem.j.incidents.Keys, AllGiven(opening))
      ensures error.Some? ==> Excused(error.value)
      ensures AllClosed(old(sys).mem.j) ==> error.None? && Now() == old(Now())
      ensures cooperative && old(Fits(n)) ==> error.None? && Fits(n)
    {
      hide Valid, SysInv, Grows, Fit, Progressed, Shrinks, AllGiven, Excused;
      Shown();
      ghost var start := Now();
      ghost var done: set<Marker> := {};
      StaysGrown(start);
      ShrinksSelf(start.sys.mem.j);
      NothingProgressed(start.sys, AllGiven(opening));
      error := None;
      var markers := Listed(incidents.Keys);
      for i := 0 to |markers|
        invariant Valid() && Synced() && Grows(start, Now()) && error.None? && Shrinks(start.sys.mem.j, sys.mem.j)
        invariant Progressed(start.sys, sys, done, AllGiven(opening))
        invariant forall k | 0 <= k < i :: markers[k] in done
        invariant forall k | i <= k < |markers| :: markers[k] !in done
        invariant cooperative && Fit(start.sys.mem.j, n, contents, channel) ==> Fits(n)
        invariant AllClosed(start.sys.mem.j) ==> Now() == start && incidents == start.sys.mem.j.incidents
      {
        error := AdvanceListed(markers[i], opening, start, done, n);
        done := done + {markers[i]};
        if error.Some? {
          return;
        }
      }
      ProgressEnds(start.sys, sys, done, AllGiven(opening));
    }

    /** One of them, if it is still open. */
    method AdvanceListed(m: Marker, opening: Marker -> Replies, ghost start: Moment, ghost done: set<Marker>,
                         ghost n: nat)
      returns (error: Option<Error>)
      requires Valid() && Synced() && Grows(start, Now()) && Shrinks(start.sys.mem.j, sys.mem.j)
      requires Progressed(start.sys, sys, done, AllGiven(opening)) && m !in done
      modifies this
      ensures Valid() && Grows(start, Now())
      ensures error.None? ==> Synced() && Shrinks(start.sys.mem.j, sys.mem.j)
      ensures error.None? ==> Progressed(start.sys, sys, done + {m}, AllGiven(opening))
      ensures error.Some? ==> Excused(error.value)
      ensures m !in old(incidents) || old(incidents[m]).closed ==>
                error.None? && Now() == old(Now()) && incidents == old(incidents)
      ensures cooperative && old(Fits(n)) ==> error.None? && Fits(n)
    {
      hide Valid, SysInv, Grows, Fit, WithinLimits, Progressed, Shrinks, Forth, Advances;
      Shown();
      error := None;
      if m !in incidents || incidents[m].closed {
        ProgressSkips(start.sys, sys, done, m, AllGiven(opening));
        return;
      }
      ghost var before := Now();
      if Fits(n) {
        FitIsWithin(sys.mem.j, n, contents, channel);
      }
      error := Advance(m, opening(m));
      Shown();
      ForthGrows(before, Now(), m, universe);
      ForthStaysFit(before, Now(), m, n, contents, channel);
      GrowsTrans(start, before, Now());
      ForthTouches(before, Now(), m);
      ShrinksTrans(start.sys.mem.j, before.sys.mem.j, sys.mem.j);
      if error.None? {
        ShrinksFrom(start.sys.mem.j, sys.mem.j, m);
        ProgressStep(start.sys, before.sys, sys, done, m, AllGiven(opening));
      }
    }

    /** With all open incidents advanced by a cooperative tracker that keeps its promise, all are in hand. */
    lemma AllGivenInHand(s: Sys, t: Sys, opening: Marker -> Replies, p: Promise)
      requires Progressed(s, t, s.mem.j.incidents.Keys, AllGiven(opening)) && Shrinks(s.mem.j, t.mem.j)
      requires cooperative && forall m :: Keeps(opening(m), p)
      ensures AllInHand(t, Stuck(s.mem.j, s.landed), p)
    {
      hide Progressed, Keeps;
      forall m
        ensures AllGiven(opening)(m).granted && AllGiven(opening)(m).readable && Keeps(AllGiven(opening)(m), p)
      {
        GivenKeeps(opening(m), p);
      }
      ProgressedIsInHand(s, t, AllGiven(opening), p);
    }

    ghost predicate NoneConfigured(rows: seq<Row>) {
      forall i | 0 <= i < |rows| :: !Configured(rows[i])
    }

    ghost predicate AllSettled(rows: seq<Row>, delivered: set<Event>, entered: set<nat>) {
      forall i | 0 <= i < |rows| :: Settled(rows[i], delivered, entered)
    }

    method CountAbove(rows: seq<Row>) returns (k: nat)
      ensures k == Above(rows, discovery)
    {
      k := 0;
      while k < |rows| && !AtBoundary(rows[k], discovery)
        invariant k <= |rows| && k + Above(rows[k..], discovery) == Above(rows, discovery)
      {
        assert rows[k..][0] == rows[k] && rows[k..][1..] == rows[k + 1..];
        k := k + 1;
      }
    }

    /** The rows above the boundary, oldest first. */
    method ReceiveRuns(rows: seq<Row>, arrival: nat -> Replies, ghost stuck: set<Marker>, ghost p: Promise)
      returns (error: Option<Error>, pending: bool)
      requires Valid() && Synced() && Genuine(rows[..Above(rows, discovery)])
      modifies this
      ensures Valid() && Grows(old(Now()), Now())
      ensures error.None? ==>
                Synced() && (pending || AllSettled(rows[..Above(rows, old(discovery))], sys.mem.delivered, handled))
      ensures pending ==> exists i :: 0 <= i < Above(rows, old(discovery)) && Waits(rows[i])
      ensures error.Some? ==> Excused(error.value)
      ensures NoneConfigured(rows[..Above(rows, old(discovery))]) ==> error.None? && !pending && Now() == old(Now())
      ensures cooperative && AllArrive(rows[..Above(rows, old(discovery))]) && old(Fits(Above(rows, discovery))) ==>
                error.None? && Fits(0)
      ensures error.None? && cooperative && (forall id :: Keeps(arrival(id), p)) && old(AllInHand(sys, stuck, p)) ==>
                AllInHand(sys, stuck, p)
    {
      hide SysInv, SenderLaw, Traced, RunsHeard, Grows, Onward, Settled, Fit, Arrives, AllInHand, Keeps;
      ghost var start := Now();
      StaysGrown(start);
      error, pending := None, false;
      var k := CountAbove(rows);
      for i := k downto 0
        invariant Valid() && Synced() && Grows(start, Now()) && error.None?
        invariant pending || AllSettled(rows[i..k], sys.mem.delivered, handled)
        invariant pending ==> exists j :: i <= j < k && Waits(rows[j])
        invariant NoneConfigured(rows[..k]) ==> !pending && Now() == start
        invariant Fit(start.sys.mem.j, k, contents, channel) && cooperative && AllArrive(rows[..k]) ==> Fits(i)
        invariant cooperative && (forall id :: Keeps(arrival(id), p)) && AllInHand(start.sys, stuck, p) ==>
                    AllInHand(sys, stuck, p)
      {
        ghost var before := Now();
        assert [rows[i]][0] == rows[..k][i];
        var waits: bool;
        error, waits := ReceiveRun(rows[i], arrival(rows[i].id), i, stuck, p);
        GrowsTrans(start, before, Now());
        if error.Some? {
          return;
        }
        pending := pending || waits;
        FirstApart(rows, i, k);
        SettledLater(rows[i + 1..k], before, Now());
      }
      assert rows[0..k] == rows[..k];
    }

    lemma FirstApart(rows: seq<Row>, i: nat, k: nat)
      requires i < k <= |rows|
      ensures rows[i..k] == [rows[i]] + rows[i + 1..k]
    {
    }

    lemma SettledLater(rows: seq<Row>, a: Moment, b: Moment)
      requires Grows(a, b) && Behind(a.sys)
      ensures AllSettled(rows, a.sys.mem.delivered, a.handled) ==> AllSettled(rows, b.sys.mem.delivered, b.handled)
      ensures AllSettled(rows, a.sys.disk.delivered, a.durably) ==> AllSettled(rows, b.sys.disk.delivered, b.durably)
    {
    }

    method MoveCursor(cursor: Cursor)
      requires Valid() && sys.progress.Idle?
      modifies this`discovery, this`sys, this`past
      ensures Valid() && discovery == Some(cursor)
      ensures sys == old(sys).(mem := old(sys).mem.(j := old(sys).mem.j.(discovery := Some(cursor))))
      ensures WithinLimits(old(sys).mem.j) ==> WithinLimits(sys.mem.j)
      ensures creates == old(creates) && landed == old(landed)
    {
      hide SysInv, SenderLaw, Traced;
      Steps(past, sys, Cover(cursor), universe);
      discovery := Some(cursor);
      sys, past := Effect(sys, Cover(cursor)), past + [Cover(cursor)];
    }

    /** Move the cursor to the newest run read, unless a run is still to be read again. */
    method Checkpoint(rows: seq<Row>, pending: bool, ghost stuck: set<Marker>, ghost p: Promise)
      returns (error: Option<Error>)
      requires Valid() && Synced()
      modifies this
      ensures Valid() && old(sys).disk.delivered <= sys.disk.delivered && old(durablyHandled) <= durablyHandled
      ensures error.Some? || pending || rows == [] ==> sys.disk.j.discovery == old(sys).disk.j.discovery
      ensures error.None? ==> Synced() && (rows != [] && !pending ==> sys.disk.j.discovery == Some(Cursor(rows[0].id,
          rows[0].triggeredAt)))
      ensures error.Some? ==> Excused(error.value)
      ensures WithinLimits(old(sys).mem.j) ==> error.None?
      ensures Tended(old(sys), sys) && (old(AllInHand(sys, stuck, p)) ==> AllInHand(sys, stuck, p))
    {
      hide SysInv, SenderLaw, Traced, SavedAs, Obligations, WithinLimits, RunsHeard, Tended, AllInHand, Discarding,
        DropsClosed, Prunes;
      ghost var start := sys;
      if rows != [] && !pending {
        MoveCursor(Cursor(rows[0].id, rows[0].triggeredAt));
      }
      ghost var was := sys;
      SameIncidentsTend(start, was);
      var ok := Save();
      PruningDropsClosed(was.mem.j, J());
      LeavingTends(was, sys, J(), universe);
      TendedTrans(start, was, sys);
      ClosedDropsOpen(was.mem.j.incidents, incidents);
      FewerInHand(start, sys, stuck, p);
      return if ok then None else Some(JournalCapacity);
    }

    /** Every configured webhook run at or below the cursor was entered, and its event delivered. */
    ghost predicate Covered(history: seq<Row>, cursor: Option<Cursor>, delivered: set<Event>, entered: set<nat>) {
      forall i | 0 <= i < |history| && AtBoundary(history[i], cursor) :: AllSettled(history[i..], delivered, entered)
    }

    /** With the rows above the cursor settled, everything is. */
    lemma CoverageGrows(first: seq<Row>, cursor: Option<Cursor>, delivered: set<Event>, entered: set<nat>)
      requires Covered(first, cursor, delivered, entered)
               && AllSettled(first[..Above(first, cursor)], delivered, entered)
      ensures AllSettled(first, delivered, entered)
    {
      var n := Above(first, cursor);
      forall i | 0 <= i < |first|
        ensures Settled(first[i], delivered, entered)
      {
        if i < n {
          assert first[..n][i] == first[i];
        } else {
          assert first[n..][i - n] == first[i];
        }
      }
    }

    /** Coverage by one cursor survives whatever is delivered and entered later. */
    lemma CoverageStays(first: seq<Row>, cursor: Option<Cursor>, delivered: set<Event>, entered: set<nat>,
                        delivered': set<Event>, entered': set<nat>)
      requires Covered(first, cursor, delivered, entered) && delivered <= delivered' && entered <= entered'
      ensures Covered(first, cursor, delivered', entered')
    {
      forall i | 0 <= i < |first| && AtBoundary(first[i], cursor)
        ensures AllSettled(first[i..], delivered', entered')
      {
        assert AllSettled(first[i..], delivered, entered);
      }
    }

    lemma SettledIsCovered(first: seq<Row>, cursor: Option<Cursor>, delivered: set<Event>, entered: set<nat>,
                           delivered': set<Event>, entered': set<nat>)
      requires AllSettled(first, delivered, entered) && delivered <= delivered' && entered <= entered'
      ensures AllSettled(first, delivered', entered') && Covered(first, cursor, delivered', entered')
    {
    }

    /** What the cursor on disk covers. */
    ghost predicate CursorHolds(first: seq<Row>)
      reads this
    {
      Covered(first, sys.disk.j.discovery, sys.disk.delivered, durablyHandled)
    }

    /** Advance the incidents, then take the runs above the cursor. */
    method TakeRuns(rows: seq<Row>, ghost first: seq<Row>, opening: Marker -> Replies, arrival: nat -> Replies,
                    ghost p: Promise)
      returns (error: Option<Error>, pending: bool, ghost advanced: Moment)
      requires Valid() && Synced() && Prefix(rows, first, discovery) && Genuine(first) && CursorHolds(first)
      modifies this
      ensures Valid() && Grows(old(Now()), Now()) && CursorHolds(first)
      ensures error.None? ==> Synced() && (pending || AllSettled(first, sys.disk.delivered, durablyHandled))
      ensures pending ==> exists i :: 0 <= i < |first| && Waits(first[i])
      ensures error.Some? ==> Excused(error.value)
      ensures AllClosed(old(sys).mem.j) && NoneConfigured(first[..Above(first, old(discovery))]) ==>
                error.None? && !pending && Now() == old(Now())
      ensures cooperative && AllArrive(first[..Above(first, old(discovery))]) && old(Fits(Above(first, discovery))) ==>
                error.None? && Fits(0)
      ensures error.None? ==>
                && Progressed(old(sys), advanced.sys, old(sys).mem.j.incidents.Keys, AllGiven(opening))
                && Grows(old(Now()), advanced) && Grows(advanced, Now())
      ensures error.None? && cooperative && (forall m :: Keeps(opening(m), p)) && (forall id :: Keeps(arrival(id), p))
              ==>
                AllInHand(sys, Stuck(old(sys).mem.j, old(landed)), p)
    {
      hide SysInv, SenderLaw, Traced, RunsHeard, Settled, AllSettled, Covered, Prefix, Fit, Arrives, Tended, AllInHand,
        Keeps, Progressed, Shrinks, AllGiven;
      ghost var start := Now();
      PrefixAbove(rows, first, discovery);
      pending := false;
      error := AdvanceAll(opening, Above(first, discovery));
      advanced := Now();
      CoverageStays(first, start.sys.disk.j.discovery, start.sys.disk.delivered, start.durably, sys.disk.delivered,
                    durablyHandled);
      if error.Some? {
        return;
      }
      ghost var stuck := Stuck(start.sys.mem.j, start.sys.landed);
      if cooperative && forall m :: Keeps(opening(m), p) {
        AllGivenInHand(start.sys, sys, opening, p);
      }
      error, pending := ReceiveRuns(rows, arrival, stuck, p);
      if pending {
        ghost var i :| 0 <= i < Above(rows, start.sys.mem.j.discovery) && Waits(rows[i]);
        assert first[..Above(rows, start.sys.mem.j.discovery)][i] == first[i];
      }
      GrowsTrans(start, advanced, Now());
      CoverageStays(first, start.sys.disk.j.discovery, start.sys.disk.delivered, start.durably, sys.disk.delivered,
                    durablyHandled);
      if error.None? && !pending {
        CoverageGrows(first, start.sys.disk.j.discovery, sys.disk.delivered, durablyHandled);
      }
    }

    /** There is work, room for all of it, and an answer to every question. */
    ghost predicate Able(pass: Pass)
      reads this
    {
      var n := Above(pass.first, file.discovery);
      cooperative && AllArrive(pass.first[..n]) && Fit(file, n, contents, channel)
    }

    /** There is nothing to do: every incident is closed, no run above the cursor is configured, and the
        tables are within their limits. */
    ghost predicate Quiet(pass: Pass)
      reads this
    {
      && AllClosed(file) && WithinLimits(file)
      && NoneConfigured(pass.first[..Above(pass.first, file.discovery)])
    }

    /** Take the runs read, and move the cursor if none of them waits. */
    method TakePass(rows: seq<Row>, pass: Pass) returns (end: PassEnd)
      requires Valid() && Synced() && Prefix(rows, pass.first, discovery) && Genuine(pass.first)
               && CursorHolds(pass.first)
      modifies this
      ensures Valid() && CursorHolds(pass.first) && !end.Unread?
      ensures old(sys).disk.delivered <= sys.disk.delivered && old(durablyHandled) <= durablyHandled
      ensures end.Complete? ==> AllSettled(pass.first, sys.disk.delivered, durablyHandled)
      ensures file.discovery == if end.Complete? then Newest(pass.first, old(file).discovery) else old(file).discovery
      ensures end.Waiting? ==> exists i :: 0 <= i < |pass.first| && Waits(pass.first[i])
      ensures end.Stopped? ==> Excused(end.error)
      ensures old(Quiet(pass)) ==> end.Complete?
      ensures old(Able(pass)) ==> end.Complete? || end.Waiting?
      ensures CreatesOnce(old(file), old(creates), old(landed), creates)
      ensures end.Complete? || end.Waiting? ==>
                AllWentOn(old(sys).disk, old(creates), old(landed), sys.disk, creates, AllGiven(pass.opening))
      ensures cooperative && (end.Complete? || end.Waiting?) ==>
                AllDone(file, creates, landed, old(Stuck(file, landed)), Promise(Prompt(pass), Full(pass)))
    {
      hide SysInv, SenderLaw, Traced, RunsHeard, Settled, AllSettled, Covered, Prefix, Genuine, Tended, AllInHand,
        Keeps, Progressed, AllGiven, CreatesOnce, AllWentOn, AllDone, Stuck, Fit, Prompt, Full, WithinLimits;
      var first := pass.first;
      ghost var p := Promise(Prompt(pass), Full(pass));
      ghost var start := Now();
      ghost var stuck := Stuck(start.sys.mem.j, start.sys.landed);
      PassKeeps(pass);
      PrefixAbove(rows, first, discovery);
      if Fits(Above(first, discovery)) {
        FitIsWithin(sys.mem.j, Above(first, discovery), contents, channel);
      }
      var error, pending, advanced := TakeRuns(rows, first, pass.opening, pass.arrival, p);
      ghost var taken := Now();
      PassCreates(start.sys, sys, universe);
      if error.Some? {
        return Stopped(error.value);
      }
      if Fits(0) {
        FitIsWithin(sys.mem.j, 0, contents, channel);
      }
      error := Checkpoint(rows, pending, stuck, p);
      CoverageStays(first, taken.sys.disk.j.discovery, taken.sys.disk.delivered, taken.durably, sys.disk.delivered,
                    durablyHandled);
      if !pending {
        SettledIsCovered(first, sys.disk.j.discovery, taken.sys.disk.delivered, taken.durably, sys.disk.delivered,
                         durablyHandled);
      }
      PassEnds(start.sys, advanced.sys, taken.sys, sys, stuck, pass);
      if error.Some? {
        return Stopped(error.value);
      }
      return if pending then Waiting else Complete;
    }

    /** What the pass leaves of the incidents. */
    lemma PassEnds(s: Sys, advanced: Sys, taken: Sys, t: Sys, stuck: set<Marker>, pass: Pass)
      requires Tended(s, advanced) && Tended(advanced, taken) && Tended(taken, t) && SysInv(t, universe)
      requires Progressed(s, advanced, s.mem.j.incidents.Keys, AllGiven(pass.opening))
      ensures CreatesOnce(s.mem.j, s.creates, s.landed, t.creates)
      ensures AllWentOn(s.mem, s.creates, s.landed, t.mem, t.creates, AllGiven(pass.opening))
      ensures AllInHand(t, stuck, Promise(Prompt(pass), Full(pass))) ==>
                AllDone(t.mem.j, t.creates, t.landed, stuck, Promise(Prompt(pass), Full(pass)))
    {
      hide SysInv, Tended, Progressed, AllGiven, CreatesOnce, AllWentOn, AllDone, AllInHand, Prompt, Full;
      TendedTrans(advanced, taken, t);
      TendedTrans(s, advanced, t);
      PassCreates(s, t, universe);
      PassAdvances(s, advanced, t, AllGiven(pass.opening), universe);
      if AllInHand(t, stuck, Promise(Prompt(pass), Full(pass))) {
        PassIsDone(t, stuck, Promise(Prompt(pass), Full(pass)), universe);
      }
    }

    /** `reconcile`: read the native history, which may grow meanwhile, and take every run above the
        cursor.  However it ends, what the saved cursor covers has been entered and delivered; when the
        pass is complete, the cursor covers all that stood there at the first read.  A calm history is
        read unless the cursor's run has left it, and the rest can fail only for a stated cause.  An issue is
        asked for at most once, and only for an incident pending or new; when the runs were taken, every
        incident open before was advanced, and with a cooperative tracker every open one is past pending and has
        its one create. */
    method Reconcile(pass: Pass) returns (end: PassEnd)
      requires Valid() && AppendOnly(pass.first, pass.growth, file.discovery) && Genuine(pass.first)
               && CursorHolds(pass.first)
      modifies this
      ensures Valid() && CursorHolds(pass.first)
      ensures old(sys).disk.delivered <= sys.disk.delivered && old(durablyHandled) <= durablyHandled
      ensures end.Complete? ==> AllSettled(pass.first, sys.disk.delivered, durablyHandled)
      ensures file.discovery == if end.Complete? then Newest(pass.first, old(file).discovery) else old(file).discovery
      ensures end.Waiting? ==> exists i :: 0 <= i < |pass.first| && Waits(pass.first[i])
      ensures end.Unread? && Readable(pass) ==>
                old(file).discovery.Some? && !Within(pass.first, |pass.first|, old(file).discovery)
      ensures end.Stopped? ==> Excused(end.error)
      ensures old(Quiet(pass)) && Readable(pass) && old(Names(file.discovery, pass.first)) ==> end.Complete?
      ensures old(Able(pass)) && Readable(pass) && old(Names(file.discovery, pass.first)) ==>
                end.Complete? || (end.Waiting? && exists i :: 0 <= i < |pass.first| && Waits(pass.first[i]))
      ensures CreatesOnce(old(file), old(creates), old(landed), creates)
      ensures end.Complete? || end.Waiting? ==>
                AllWentOn(old(sys).disk, old(creates), old(landed), sys.disk, creates, AllGiven(pass.opening))
      ensures cooperative && (end.Complete? || end.Waiting?) ==>
                AllDone(file, creates, landed, old(Stuck(file, landed)), Promise(Prompt(pass), Full(pass)))
    {
      hide SysInv, SenderLaw, Traced, RunsHeard, Settled, AllSettled, Covered, Prefix, AppendOnly, Calm, AllGiven,
        AllWentOn, AllDone, Stuck, Fit, Prompt, Full, WithinLimits;
      Load();
      var found := Runs(pass.first, pass.growth, pass.available, pass.reports, runs.Keys, discovery, None);
      if found.Refused? {
        return Unread(found.error);
      }
      PrefixAbove(found.rows, pass.first, discovery);
      end := TakePass(found.rows, pass);
    }

    /** When the history has grown, what the cursor covered it still covers. */
    lemma CoverageOfLaterHistory(older: seq<Row>, newer: seq<Row>, cursor: Option<Cursor>, delivered: set<Event>,
                                 entered: set<nat>)
      requires Covered(older, cursor, delivered, entered) && Continues(older, newer, cursor)
      ensures Covered(newer, cursor, delivered, entered)
    {
      var n := |newer| - |older|;
      forall i | 0 <= i < |newer| && AtBoundary(newer[i], cursor)
        ensures AllSettled(newer[i..], delivered, entered)
      {
        assert SameRun(older[i - n], newer[n + (i - n)]);
        assert AllSettled(older[i - n..], delivered, entered);
        forall k | 0 <= k < |newer[i..]|
          ensures Settled(newer[i..][k], delivered, entered)
        {
          assert Settled(older[i - n..][k], delivered, entered);
          assert SameRun(older[i - n + k], newer[n + (i - n + k)]);
        }
      }
    }

    /** One more pass, over the history an earlier one read or that history grown. */
    method ReconcileNext(ghost older: seq<Row>, pass: Pass) returns (end: PassEnd)
      requires Valid() && CursorHolds(older) && Names(file.discovery, older)
      requires Genuine(pass.first) && UniqueIds(pass) && (pass.first == older || Follows(older, pass.first))
      modifies this
      ensures Valid() && CursorHolds(pass.first) && Names(file.discovery, pass.first)
      ensures old(sys).disk.delivered <= sys.disk.delivered && old(durablyHandled) <= durablyHandled
      ensures end.Complete? ==> AllSettled(pass.first, sys.disk.delivered, durablyHandled)
      ensures Readable(pass) ==> !end.Unread?
      ensures end.Stopped? ==> Excused(end.error)
    {
      hide SysInv, SenderLaw, Traced, RunsHeard, Settled, AllSettled, Covered, AppendOnly, Calm;
      if pass.first != older {
        FollowsContinues(older, pass, file.discovery);
        CoverageOfLaterHistory(older, pass.first, file.discovery, sys.disk.delivered, durablyHandled);
      }
      NothingBelowInserted(pass, file.discovery);
      end := Reconcile(pass);
    }

    /** What takes effect between two passes. */
    method LandLate(late: seq<Marker>)
      requires Valid()
      modifies this`landed, this`sys, this`past
      ensures Valid() && sys == old(sys).(landed := landed) && old(landed) <= landed <= creates
    {
      hide Valid, SysInv, Forth;
      Shown();
      LandedWereAsked(sys, universe);
      for i := 0 to |late|
        invariant Valid() && sys == old(sys).(landed := landed) && old(landed) <= landed <= creates
      {
        if landed[late[i]] < creates[late[i]] {
          Land(late[i]);
        }
      }
    }

    /** The passes one after another, over a history that only grows. */
    ghost predicate Lasting(passes: seq<Pass>) {
      && (forall i | 0 <= i < |passes| :: Genuine(passes[i].first) && UniqueIds(passes[i]))
      && (forall i | 0 < i < |passes| :: Follows(passes[i - 1].first, passes[i].first))
    }

    /** Pass after pass, whatever happens in each: a run that some complete pass found in the history stays
        entered and its event delivered, what the cursor on disk covers is so, and a calm history is always
        read. */
    method ReconcileAll(passes: seq<Pass>) returns (ends: seq<PassEnd>)
      requires Valid() && Lasting(passes)
      requires passes != [] ==> CursorHolds(passes[0].first) && Names(file.discovery, passes[0].first)
      modifies this
      ensures Valid() && |ends| == |passes|
      ensures passes != [] ==>
                CursorHolds(passes[|passes| - 1].first) && Names(file.discovery, passes[|passes| - 1].first)
      ensures forall i | 0 <= i < |passes| && ends[i].Complete? ::
                AllSettled(passes[i].first, sys.disk.delivered, durablyHandled)
      ensures forall i | 0 <= i < |passes| && Readable(passes[i]) :: !ends[i].Unread?
      ensures forall i | 0 <= i < |passes| && ends[i].Stopped? :: Excused(ends[i].error)
    {
      hide Valid, AllSettled, Covered, Genuine, UniqueIds, Follows, Names, Readable, Excused;
      ends := [];
      for n := 0 to |passes|
        invariant Valid() && |ends| == n
        invariant passes != [] ==>
          var k := if n == 0 then 0 else n - 1; CursorHolds(passes[k].first) && Names(file.discovery, passes[k].first)
        invariant forall i | 0 <= i < n && ends[i].Complete? ::
                    AllSettled(passes[i].first, sys.disk.delivered, durablyHandled)
        invariant forall i | 0 <= i < n && Readable(passes[i]) :: !ends[i].Unread?
        invariant forall i | 0 <= i < n && ends[i].Stopped? :: Excused(ends[i].error)
      {
        ghost var delivered, entered := sys.disk.delivered, durablyHandled;
        LandLate(passes[n].late);
        var end := ReconcileNext(passes[if n == 0 then 0 else n - 1].first, passes[n]);
        forall i | 0 <= i < n && ends[i].Complete?
          ensures AllSettled(passes[i].first, sys.disk.delivered, durablyHandled)
        {
          SettledIsCovered(passes[i].first, None, delivered, entered, sys.disk.delivered, durablyHandled);
        }
        ends := ends + [end];
      }
    }

    /** Whatever its methods did, the program is in a state the theorems about all runs speak of. */
    lemma IsReachable()
      requires Valid()
      ensures IncidentTheorems.Reachable(sys, universe)
    {
      hide SysInv, SenderLaw, RunsHeard;
    }
  }

  /** What one invocation meets: the native history at its first page read, what is inserted before each
      later one, which pages can be read and which state the total; what is answered when the incidents
      open before are advanced, and when the incident a run touches is; and which creates asked for earlier
      have taken effect since the pass before. */
  datatype Pass = Pass(first: seq<Row>, growth: nat -> seq<Row>, available: nat -> bool, reports: nat -> bool,
                       opening: Marker -> Replies, arrival: nat -> Replies, late: seq<Marker>)

  datatype PassEnd = Complete | Waiting | Unread(cause: DiscoveryError) | Stopped(error: Error)

  /** Creates land at once and are answered. */
  ghost predicate Prompt(pass: Pass) {
    && (forall m :: pass.opening(m).lands && pass.opening(m).answers)
    && (forall id :: pass.arrival(id).lands && pass.arrival(id).answers)
  }

  /** All that is asked of the tracker is done at once. */
  ghost predicate Full(pass: Pass) {
    && (forall m :: Keeps(pass.opening(m), Promise(true, true)))
    && (forall id :: Keeps(pass.arrival(id), Promise(true, true)))
  }

  lemma PassKeeps(pass: Pass)
    ensures forall m :: Keeps(pass.opening(m), Promise(Prompt(pass), Full(pass)))
    ensures forall id :: Keeps(pass.arrival(id), Promise(Prompt(pass), Full(pass)))
  {
  }

  /** A calm history within the normal window, all of it readable. */
  ghost predicate Readable(pass: Pass) {
    Calm(pass.first, pass.growth) && (forall p :: pass.available(p)) && |pass.first| < RUN_PAGE * RUN_PAGES
  }

  /** No two runs ever have the same ID. */
  ghost predicate UniqueIds(pass: Pass) {
    forall p: nat :: DistinctIds(History(pass.first, pass.growth, p))
  }

  function Newest(rows: seq<Row>, otherwise: Option<Cursor>): Option<Cursor> {
    if rows == [] then otherwise else Some(Cursor(rows[0].id, rows[0].triggeredAt))
  }

  /** The cursor, if there is one, names a run of the history. */
  predicate Names(cursor: Option<Cursor>, history: seq<Row>) {
    cursor.Some? ==> exists i :: 0 <= i < |history| && AtBoundary(history[i], cursor)
  }

  /** The history has grown at its head, and only statuses have changed. */
  ghost predicate Follows(older: seq<Row>, newer: seq<Row>) {
    |older| <= |newer| && forall i | 0 <= i < |older| :: SameRun(older[i], newer[|newer| - |older| + i])
  }

  /** The run the cursor names is not inserted again. */
  lemma FollowsContinues(older: seq<Row>, pass: Pass, cursor: Option<Cursor>)
    requires Follows(older, pass.first) && UniqueIds(pass) && Names(cursor, older)
    ensures Continues(older, pass.first, cursor) && Names(cursor, pass.first)
  {
    var newer := pass.first;
    if cursor.Some? {
      var k :| 0 <= k < |older| && AtBoundary(older[k], cursor);
      assert SameRun(older[k], newer[|newer| - |older| + k]);
      assert DistinctIds(History(newer, pass.growth, 0));
    }
  }

  lemma NothingBelowInserted(pass: Pass, cursor: Option<Cursor>)
    requires UniqueIds(pass) && Names(cursor, pass.first)
    ensures AppendOnly(pass.first, pass.growth, cursor)
  {
    if cursor.Some? {
      var k :| 0 <= k < |pass.first| && AtBoundary(pass.first[k], cursor);
      forall p: nat, i | p > 0 && 0 <= i < |pass.growth(p)|
        ensures !AtBoundary(pass.growth(p)[i], cursor)
      {
        var history := History(pass.first, pass.growth, p);
        GrowsAtHead(pass.first, pass.growth, p - 1);
        GrowsAtHead(pass.first, pass.growth, p);
        assert DistinctIds(history);
        var n := |history| - |pass.first|;
        assert history[i] == pass.growth(p)[i] && history[n..][k] == history[n + k];
      }
    }
  }

  /** One run at two readings: only its status may have changed. */
  predicate SameRun(a: Row, b: Row) {
    a.id == b.id && a.webhook == b.webhook && a.trigger == b.trigger && a.triggeredAt == b.triggeredAt
        && a.payload == b.payload
  }

  ghost predicate Continues(older: seq<Row>, newer: seq<Row>, cursor: Option<Cursor>) {
    && |older| <= |newer|
    && (forall i | 0 <= i < |older| :: SameRun(older[i], newer[|newer| - |older| + i]))
    && (forall i | 0 <= i < |newer| - |older| :: !AtBoundary(newer[i], cursor))
  }

  /** How many rows come before the boundary. */
  function Above(rows: seq<Row>, boundary: Option<Cursor>): (n: nat)
    ensures n <= |rows| && (forall i | 0 <= i < n :: !AtBoundary(rows[i], boundary))
            && (n < |rows| ==> AtBoundary(rows[n], boundary))
  {
    if rows == [] || AtBoundary(rows[0], boundary) then 0 else 1 + Above(rows[1..], boundary)
  }

  /** What was read above the boundary is what stood above it at the first read. */
  lemma PrefixAbove(rows: seq<Row>, first: seq<Row>, boundary: Option<Cursor>)
    requires Prefix(rows, first, boundary)
    ensures var n := Above(first, boundary); Above(rows, boundary) == n && rows[..n] == first[..n]
    ensures (rows == [] <==> first == []) && (first != [] ==> rows[0] == first[0])
  {
    if boundary.Some? {
      var i :| 0 <= i < |first| && i < |rows| && AtBoundary(first[i], boundary) && rows[..i + 1] == first[..i + 1];
      var n := Above(first, boundary);
      assert n <= i;
      assert forall k | 0 <= k <= i :: rows[k] == rows[..i + 1][k] && first[k] == first[..i + 1][k];
      assert rows[..n] == rows[..i + 1][..n] && first[..n] == first[..i + 1][..n];
    } else {
      assert Above(first, boundary) == |first|;
      assert rows[..|first|] == first[..|first|] == first;
    }
  }

  lemma ShrinksFrom(j: Journal, k: Journal, m: Marker)
    requires Shrinks(j, k) && m in k.incidents
    ensures m in j.incidents && j.incidents[m].closed == k.incidents[m].closed
  {
  }

  lemma StaysGrown(a: Moment)
    ensures Grows(a, a)
  {
    hide Tended;
    TendsNothing(a.sys);
  }

  lemma ImportsWereSent(s: Sys, universe: set<Event>)
    requires SysInv(s, universe)
    ensures forall k | k in s.mem.j.events :: s.mem.j.events[k].payload in universe
  {
    forall k | k in s.mem.j.events
      ensures s.mem.j.events[k].payload in universe
    {
      assert EventOk(s.mem.j, s.mem.delivered, k);
    }
  }

  lemma FitHasNoImports(j: Journal, n: nat, contents: nat -> Option<Event>, channel: nat -> nat)
    requires Fit(j, n, contents, channel)
    ensures forall k | k in j.events :: j.events[k].origin == NativePayload
  {
  }

  /** While there is room, a run's own payload is accepted and takes its share. */
  lemma ProcessFits(s: Sys, d: Delivery, env: Env, n: nat, universe: set<Event>, contents: nat -> Option<Event>,
                    channel: nat -> nat)
    requires SysInv(s, universe) && SenderLaw(universe) && d.event in universe && Enabled(s, Deliver(d, env))
    requires Standing(env) && Native(d, contents, channel) && Fit(s.mem.j, n + 1, contents, channel)
    ensures IncidentJournal.Process(s.mem.j, d, env).1.Done?
    ensures Fit(Effect(s, Deliver(d, env)).mem.j, n, contents, channel)
  {
    assert s.mem.delivered + {d.event} <= universe;
    hide BookInv, CreateInv, IncidentJournal.Process, Fit, Native, CoversTables;
    DeliveryAccepted(s.mem, d, env, n, contents, channel);
  }

  /** A delivery loses nothing. */
  lemma DeliveryGrows(a: Moment, b: Moment, d: Delivery, env: Env, events: set<Event>)
    requires SysInv(a.sys, events) && SenderLaw(events) && d.event in events
    requires Enabled(a.sys, Deliver(d, env)) && b.sys == Effect(a.sys, Deliver(d, env))
             && b.past == a.past + [Deliver(d, env)]
    requires a.handled <= b.handled && a.durably <= b.durably
    ensures Grows(a, b) && LivesOn(a.sys.mem.j, b.sys.mem.j)
    ensures IncidentJournal.Process(a.sys.mem.j, d, env).1.Done? ==> d.event in b.sys.mem.delivered
  {
    hide SysInv, SenderLaw, CoversTables, LivesOn, Tended, IncidentJournal.Process;
    DeliveryKeepsCursor(a.sys.mem.j, d, env);
    DeliveryTends(a.sys, d, env, events);
  }

  lemma {:induction false} AdoptKeepsCursor(j: Journal, m: Marker, e: Event, ids: seq<nat>)
    requires m in j.incidents
    ensures AdoptAll(j, m, e, ids).discovery == j.discovery
  {
    if ids != [] {
      AdoptKeepsCursor(j, m, e, ids[..|ids| - 1]);
    }
  }

  lemma FaultKeepsCursor(j: Journal, marker: Option<Marker>, d: Delivery, env: Env)
    requires marker.Some? ==> marker.value in j.incidents
    ensures ProcessFault(j, marker, d, env).0.discovery == j.discovery
  {
    hide AdoptAll;
    var m := Marker(d.event.group, d.event.eventId);
    if marker.Some? {
      AdoptKeepsCursor(Admit(j, marker.value, d, IncidentEvent, env.now), marker.value, d.event, env.ids);
    } else {
      AdoptKeepsCursor(Admit(IncidentJournal.Found(j, d.event), m, d, IncidentEvent, env.now), m, d.event, env.ids);
    }
  }

  lemma DeliveryKeepsCursor(j: Journal, d: Delivery, env: Env)
    ensures IncidentJournal.Process(j, d, env).0.discovery == j.discovery
  {
    hide ProcessFault, IncidentJournal.OpenIncident;
    OpeningIsRetained(j, d.event.group, env);
    var (k, r) := IncidentJournal.OpenIncident(j, d.event.group, env);
    if r.Done? {
      FaultKeepsCursor(k, r.value, d, env);
    }
  }

  lemma GrowthKeeps(a: Moment, b: Moment, e: Event, id: nat)
    requires Grows(a, b) && Behind(a.sys)
    ensures e in a.sys.mem.delivered ==> e in b.sys.mem.delivered
    ensures id in a.handled ==> id in b.handled
  {
  }

  function NativeOf(row: Row): NativeRun {
    NativeRun(Some(row.id), row.webhook, row.trigger, row.admission, row.taskId, row.triggeredAt)
  }

  /** Between the two moments nothing was lost, and the cursor stayed. */
  ghost predicate Grows(a: Moment, b: Moment) {
    a.past <= b.past && Onward(a.sys, b.sys) && Tended(a.sys, b.sys) && a.handled <= b.handled && a.durably <= b.durably
  }

  lemma GrowsTrans(a: Moment, b: Moment, c: Moment)
    requires Grows(a, b) && Grows(b, c)
    ensures Grows(a, c)
  {
    hide Tended;
    TendedTrans(a.sys, b.sys, c.sys);
  }

  lemma ForthGrows(a: Moment, b: Moment, m: Marker, events: set<Event>)
    requires Forth(a, b, m) && SysInv(a.sys, events)
    requires b.sys.creates[m] == a.sys.creates[m]
             || (a.sys.landed[m] == 0 && m in a.sys.mem.j.incidents && a.sys.mem.j.incidents[m].phase == Pending)
    ensures Grows(a, b)
  {
    hide SysInv, Onward, Lifecycle, Shrinks, Touches, Tended;
    TouchesTends(a.sys, b.sys, m, events);
  }

  /** One lifecycle step forth. */
  lemma StepsForth(a: Moment, b: Moment, x: Action, m: Marker)
    requires b.past == a.past + [x] && Lifecycle(x) && b.handled == a.handled && a.durably <= b.durably
    requires Onward(a.sys, b.sys) && Shrinks(a.sys.mem.j, b.sys.mem.j) && Touches(a.sys, b.sys, m)
    ensures Forth(a, b, m)
  {
    hide Onward, Lifecycle, Shrinks, Touches;
  }

  lemma StaysPut(a: Moment, m: Marker)
    ensures Forth(a, a, m)
  {
    hide Touches;
    TouchesNothing(a.sys, m);
  }

  lemma SeeingTouches(s: Sys, m: Marker)
    requires Enabled(s, FindAbsent(m))
    ensures Touches(s, Effect(s, FindAbsent(m)), m)
  {
  }

  lemma CreatingTouches(s: Sys, m: Marker)
    requires Enabled(s, Create(m))
    ensures Touches(s, Effect(s, Create(m)), m)
  {
  }

  lemma LandingTouches(s: Sys, m: Marker)
    requires Enabled(s, Land(m))
    ensures Touches(s, Effect(s, Land(m)), m)
  {
  }

  datatype Finding = Unproven | Absent | Issue(issue: nat) | Several

  /** What is known of a run of the program at one moment. */
  datatype Moment = Moment(past: seq<Action>, sys: Sys, handled: set<nat>, durably: set<nat>)

  /** Between the two moments only lifecycle steps of this incident happened. */
  ghost predicate Forth(a: Moment, b: Moment, m: Marker) {
    && a.past <= b.past && (forall x | x in b.past[|a.past|..] :: Lifecycle(x))
    && Onward(a.sys, b.sys) && b.handled == a.handled && a.durably <= b.durably
    && Shrinks(a.sys.mem.j, b.sys.mem.j) && Touches(a.sys, b.sys, m)
  }

  lemma ForthTouches(a: Moment, b: Moment, m: Marker)
    requires Forth(a, b, m)
    ensures Touches(a.sys, b.sys, m) && Shrinks(a.sys.mem.j, b.sys.mem.j)
  {
    hide Touches, Shrinks, Onward, Lifecycle;
  }

  lemma ForthStaysSmall(a: Moment, b: Moment, m: Marker)
    requires Forth(a, b, m)
    ensures WithinLimits(a.sys.mem.j) ==> WithinLimits(b.sys.mem.j)
  {
    hide Onward, Lifecycle, Shrinks, Touches, WithinLimits;
    ShrinksStaysSmall(a.sys.mem.j, b.sys.mem.j);
  }

  /** Lifecycle steps and their saves leave the journal as roomy as it was. */
  lemma ForthStaysFit(a: Moment, b: Moment, m: Marker, n: nat, contents: nat -> Option<Event>, channel: nat -> nat)
    requires Forth(a, b, m)
    ensures Fit(a.sys.mem.j, n, contents, channel) ==> Fit(b.sys.mem.j, n, contents, channel)
  {
    hide Onward, Lifecycle, Shrinks, Touches, Fit;
    ShrinksStaysFit(a.sys.mem.j, b.sys.mem.j, n, contents, channel);
  }

  lemma ForthTrans(a: Moment, b: Moment, c: Moment, m: Marker)
    requires Forth(a, b, m) && Forth(b, c, m)
    ensures Forth(a, c, m)
  {
    hide Lifecycle, Shrinks, Touches;
    ShrinksTrans(a.sys.mem.j, b.sys.mem.j, c.sys.mem.j);
    TouchesTrans(a.sys, b.sys, c.sys, m);
    assert c.past[|a.past|..] == b.past[|a.past|..] + c.past[|b.past|..];
  }

  /** The step replaces one incident and nothing else of either copy. */
  ghost predicate Changes(s: Sys, a: Action, m: Marker, inc: Incident)
    requires Enabled(s, a)
  {
    && Lifecycle(a) && m in s.mem.j.incidents
    && inc.episodes == s.mem.j.incidents[m].episodes && inc.closed == s.mem.j.incidents[m].closed
    && Rank(s.mem.j.incidents[m].phase) <= Rank(inc.phase)
    && Effect(s, a) == s.(mem := WithIncident(s.mem, m, inc), progress := Effect(s, a).progress)
  }

  lemma ChangeHears(s: Sys, a: Action, m: Marker, inc: Incident, contents: nat -> Option<Event>)
    requires RunsHeard(s.mem, contents) && Enabled(s, a) && Changes(s, a, m, inc)
    ensures RunsHeard(Effect(s, a).mem, contents) && Onward(s, Effect(s, a)) && !a.Deliver?
    ensures Shrinks(s.mem.j, Effect(s, a).mem.j) && Touches(s, Effect(s, a), m)
  {
    hide Enabled, Effect;
  }

  predicate Lifecycle(a: Action) {
    !a.Restart? && !a.Deliver? && !a.NoteRun? && !a.Cover?
  }

  /** Nothing delivered is lost, on disk or in memory, and the cursor stays. */
  ghost predicate Onward(s: Sys, t: Sys) {
    Behind(s) ==>
      && Behind(t) && s.mem.delivered <= t.mem.delivered && s.disk.delivered <= t.disk.delivered
      && t.mem.j.discovery == s.mem.j.discovery
  }

  ghost predicate Behind(s: Sys) {
    s.disk.delivered <= s.mem.delivered && s.disk.j.discovery == s.mem.j.discovery
  }

  lemma SavingIsOnward(s: Sys, left: Journal)
    requires Prunes(s.mem.j, left)
    ensures Onward(s, Pruned(s, left)) && Onward(s, Written(Pruned(s, left)))
    ensures Shrinks(s.mem.j, left)
  {
    PruningShrinks(s.mem.j, left);
    hide Prunes, Shrinks;
  }

  lemma PruningDropsClosed(j: Journal, k: Journal)
    requires Prunes(j, k)
    ensures DropsClosed(j.incidents, k.incidents)
  {
    hide Thinned, PinnedRuns, PinnedEvents, PinnedInputs;
  }

  lemma NotingGrows(a: Moment, id: nat, r: RunRecord, contents: nat -> Option<Event>)
    requires RunsHeard(a.sys.mem, contents) && a.sys.progress.Idle?
    requires r.marker.None? && r.eventId.None? && r.unresolved.Some?
    ensures Enabled(a.sys, IncidentRuns.NoteRun(id, r))
    ensures var t := Effect(a.sys, IncidentRuns.NoteRun(id, r));
            && t == a.sys.(mem := a.sys.mem.(j := a.sys.mem.j.(runs := a.sys.mem.j.runs[id := r])))
            && RunsHeard(t.mem, contents)
            && Grows(a, Moment(a.past + [IncidentRuns.NoteRun(id, r)], t, a.handled + {id}, a.durably))
  {
    SameIncidentsTend(a.sys, Effect(a.sys, IncidentRuns.NoteRun(id, r)));
  }

  lemma PruningKeepsOwing(j: Journal, k: Journal)
    requires Prunes(j, k)
    ensures forall id | id in j.runs && j.runs[id].unresolved.Some? :: id in k.runs && k.runs[id] == j.runs[id]
  {
    hide PinnedEvents, PinnedInputs, DropsClosed;
  }

  lemma ClosedDropsOpen(a: map<Marker, Incident>, b: map<Marker, Incident>)
    requires DropsClosed(a, b)
    ensures forall m | m in b :: m in a && b[m] == a[m]
    ensures forall m | m in a && !a[m].closed :: m in b
  {
  }

  lemma OpenSurvives(j: Journal, k: Journal, m: Marker)
    requires Prunes(j, k) && m in j.incidents && !j.incidents[m].closed
    ensures m in k.incidents && k.incidents[m] == j.incidents[m]
  {
    hide Thinned, PinnedRuns, PinnedEvents, PinnedInputs;
  }

  lemma OpeningIsRetained(j: Journal, g: string, env: Env)
    ensures var (k, r) := IncidentJournal.OpenIncident(j, g, env);
            k.runs == j.runs && k.discovery == j.discovery
                && (r.Done? && r.value.Some? ==> r.value.value in k.incidents)
  {
  }

  /** A run delivers its own payload, if it has a valid one. */
  ghost predicate Authentic(d: Delivery, contents: nat -> Option<Event>) {
    d.run.id.Some? && contents(d.run.id.value).Some? ==> contents(d.run.id.value) == Some(d.event)
  }

  /** A run record after a step is an earlier one, perhaps reassociated, or that of the delivery. */
  ghost predicate RunsFrom(j: Journal, k: Journal, d: Delivery) {
    forall id | id in k.runs :: (id in j.runs && k.runs[id].unresolved == j.runs[id].unresolved) || d.run.id == Some(id)
  }

  lemma {:induction false} AdoptRuns(j: Journal, m: Marker, e: Event, ids: seq<nat>, d: Delivery)
    requires m in j.incidents
    ensures RunsFrom(j, AdoptAll(j, m, e, ids), d)
  {
    if ids != [] {
      AdoptRuns(j, m, e, ids[..|ids| - 1], d);
    }
  }

  lemma RunsFromTrans(i: Journal, j: Journal, k: Journal, d: Delivery)
    requires RunsFrom(i, j, d) && RunsFrom(j, k, d)
    ensures RunsFrom(i, k, d)
  {
  }

  lemma HostedRuns(j: Journal, m: Marker, d: Delivery, env: Env)
    requires m in j.incidents
    ensures RunsFrom(j, AdoptAll(Admit(j, m, d, IncidentEvent, env.now), m, d.event, env.ids), d)
  {
    var k := Admit(j, m, d, IncidentEvent, env.now);
    assert RunsFrom(j, k, d);
    assert m in k.incidents;
    AdoptRuns(k, m, d.event, env.ids, d);
    RunsFromTrans(j, k, AdoptAll(k, m, d.event, env.ids), d);
  }

  lemma FaultRuns(j: Journal, marker: Option<Marker>, d: Delivery, env: Env)
    requires marker.Some? ==> marker.value in j.incidents
    ensures var (k, r) := ProcessFault(j, marker, d, env); RunsFrom(j, k, d) && (r.Failed? ==> k.runs == j.runs)
  {
    hide AdoptAll, Admit;
    var m := Marker(d.event.group, d.event.eventId);
    if marker.Some? {
      HostedRuns(j, marker.value, d, env);
    } else {
      HostedRuns(IncidentJournal.Found(j, d.event), m, d, env);
    }
  }

  lemma FirstRuns(j: Journal, d: Delivery, env: Env)
    ensures var (k, r) := ProcessFirst(j, d, env); RunsFrom(j, k, d) && (r.Failed? ==> k.runs == j.runs)
  {
    OpeningIsRetained(j, d.event.group, env);
    var (k, r) := IncidentJournal.OpenIncident(j, d.event.group, env);
    hide ProcessFault, ProcessRecovery, Stored, IncidentJournal.OpenIncident;
    if r.Done? {
      FaultRuns(k, r.value, d, env);
      RecoveryRuns(k, r.value, d, env.now);
      StoredRuns(k, d, FirstClosed(k, d.event, env.markers), ClosedEpisodeObservation, env.now);
    }
  }

  lemma StoredRuns(j: Journal, d: Delivery, marker: Option<Marker>, outcome: Outcome, now: int)
    ensures RunsFrom(j, Stored(j, d, marker, outcome, now), d)
  {
  }

  lemma RecoveryRuns(j: Journal, marker: Option<Marker>, d: Delivery, now: int)
    ensures RunsFrom(j, ProcessRecovery(j, marker, d, now).0, d) && ProcessRecovery(j, marker, d, now).1.Done?
  {
  }

  lemma DeliveryRuns(j: Journal, d: Delivery, env: Env)
    ensures var (k, r) := IncidentJournal.Process(j, d, env); RunsFrom(j, k, d) && (r.Failed? ==> k.runs == j.runs)
  {
    hide ProcessFirst;
    FirstRuns(j, d, env);
  }

  lemma DeliveryHears(b: Book, d: Delivery, env: Env, contents: nat -> Option<Event>)
    requires RunsHeard(b, contents) && Authentic(d, contents)
    ensures RunsHeard(AfterDelivery(b, d, env), contents)
    ensures var (k, r) := IncidentJournal.Process(b.j, d, env);
            k.runs.Keys <= b.j.runs.Keys + (if r.Done? && d.run.id.Some? then {d.run.id.value} else {})
  {
    hide IncidentJournal.Process;
    DeliveryRuns(b.j, d, env);
    var k := IncidentJournal.Process(b.j, d, env).0;
    forall id | id in k.runs
      ensures id in b.j.runs || d.run.id == Some(id)
    {
      assert RunsFrom(b.j, k, d);
    }
  }

  lemma AdoptHosts(j: Journal, m: Marker, e: Event, id: nat)
    requires m in j.incidents
    ensures m in Adopt(j, m, e, id).incidents
  {
  }

  /** What `process` leaves of the episodes when it updates one in place. */
  lemma SameEpisodes(before: map<nat, Episode>, after: map<nat, Episode>, e: Event)
    requires e.kind == Recovery
    requires after == if e.episodeId in before && e.sequence > before[e.episodeId].lastSequence
                      then before[e.episodeId := before[e.episodeId].(recovered := true, lastSequence := e.sequence)]
                          else before
    ensures after == Merge(before, e)
  {
  }

  lemma PruningHears(b: Book, k: Journal, contents: nat -> Option<Event>)
    requires RunsHeard(b, contents) && Prunes(b.j, k)
    ensures forall d :: RunsHeard(b.(j := k, dropped := d), contents)
    ensures k.runs.Keys <= b.j.runs.Keys
  {
  }

  /** An unquestioned run record stands for a delivered event. */
  ghost predicate RunsHeard(b: Book, contents: nat -> Option<Event>) {
    forall id | id in b.j.runs && b.j.runs[id].unresolved.None? && contents(id).Some? ::
        contents(id).value in b.delivered
  }
}
