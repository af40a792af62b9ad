/** How far an incident gets with what the tracker answers, and what a pass over all of them leaves. */
module IncidentProgress {
  import opened HealthEvents
  import opened IncidentJournal
  import opened IncidentInvariant
  import opened IncidentDelivery
  import opened IncidentPruning
  import opened IncidentRuns
  import IncidentTheorems
  import ReceivedEvents

  /** What is answered while one incident is advanced. */
  datatype Replies = Replies(
    granted: bool,    // the saved authority still stands
    readable: bool,   // all pages of the issue list can be read
    lands: bool,      // a create takes effect at once
    answers: bool,    // and its reply arrives
    indexed: bool,    // the metadata read back is what was to be stored
    taken: bool,      // the issue is with the coordinator and out of the backlog
    linked: bool,     // it has a native task of the coordinator
    stored: bool)     // the metadata read back after admission is what was to be stored

  // ---- one incident ----------------------------------------------------------------------------

  /** Once looked for, and asked for if there is none, the incident's issue is known. */
  predicate Known(phase: Phase, there: bool, r: Replies) {
    match phase
    case Pending => there || (r.lands && r.answers)
    case Uncertain => there && r.readable
    case _ => true
  }

  /** How far an incident gets whose issue is known. */
  function HowFar(phase: Phase, r: Replies): Phase {
    match phase
    case Admitted => Admitted
    case AdmissionPending => if r.linked then Admitted else AdmissionPending
    case Indexed => if !r.taken then Indexed else if !r.linked then AdmissionPending else Admitted
    case _ =>
      if !r.indexed then Created else if !r.taken then Indexed else if !r.linked then AdmissionPending else Admitted
  }

  /** Whether its metadata is still to be written: admission writes it anew. */
  predicate StaysDirty(inc: Incident, r: Replies) {
    if inc.phase != Admitted && HowFar(inc.phase, r) == Admitted then !r.stored
    else inc.metadataDirty && (inc.phase == AdmissionPending || !r.indexed)
  }

  /** From `created` on. */
  predicate Climbs(a: Incident, b: Incident, r: Replies) {
    b == a.(phase := HowFar(a.phase, r), metadataDirty := StaysDirty(a, r))
  }

  /** Up to `created`: the issue was found, or created, or is uncertain. */
  predicate Opens(a: Incident, b: Incident, there: bool, r: Replies) {
    && b == a.(phase := b.phase, issueId := b.issueId, attempts := b.attempts)
    && b.attempts == a.attempts + (if a.phase == Pending && !there then 1 else 0)
    && (if Known(a.phase, there, r) then b.phase == Created && b.issueId.Some?
        else b.phase == Uncertain && b.issueId == a.issueId)
  }

  /** What advancing makes of an incident whose issue was or was not there to be found. */
  predicate Advances(a: Incident, b: Incident, there: bool, r: Replies) {
    if !r.granted then b == a
    else
      && b == a.(phase := b.phase, issueId := b.issueId, attempts := b.attempts, metadataDirty := b.metadataDirty)
      && b.attempts == a.attempts + (if a.phase == Pending && !there then 1 else 0)
      && (if Known(a.phase, there, r) then
            && b.phase == HowFar(a.phase, r) && b.metadataDirty == StaysDirty(a, r)
            && (if a.phase == Pending || a.phase == Uncertain then b.issueId.Some? else b.issueId == a.issueId)
          else b.phase == Uncertain && b.issueId == a.issueId && b.metadataDirty == a.metadataDirty)
  }

  lemma NothingIsAdvanced(inc: Incident, there: bool, r: Replies)
    ensures !r.granted ==> Advances(inc, inc, there, r)
  {
  }

  lemma OpensThenClimbs(a: Incident, mid: Incident, b: Incident, there: bool, r: Replies)
    requires r.granted
    requires if a.phase == Pending || a.phase == Uncertain then Opens(a, mid, there, r) else mid == a
    requires if mid.phase == Uncertain then b == mid else Climbs(mid, b, r)
    ensures Advances(a, b, there, r)
  {
  }

  // ---- lifecycle steps of one incident ---------------------------------------------------------

  /** Between these states only this incident moved, and only on; closed ones may have been discarded. */
  ghost predicate Touches(s: Sys, t: Sys, m: Marker) {
    && Asks(s, t, m) && Moves(s.mem.j, t.mem.j, m)
    && (forall n :: t.mem.dropped[n]
                    == s.mem.dropped[n] + (if n in s.mem.j.incidents && n !in t.mem.j.incidents then 1 else 0))
  }

  ghost predicate Asks(s: Sys, t: Sys, m: Marker) {
    && (forall n | n != m :: t.landed[n] == s.landed[n] && t.creates[n] == s.creates[n])
    && s.landed[m] <= t.landed[m] && s.creates[m] <= t.creates[m]
  }

  predicate Moves(j: Journal, k: Journal, m: Marker) {
    && (forall n | n in k.incidents ::
          && n in j.incidents && Rank(j.incidents[n].phase) <= Rank(k.incidents[n].phase)
          && k.incidents[n].closed == j.incidents[n].closed
          && (n != m ==> k.incidents[n] == j.incidents[n]))
    && (forall n | n in j.incidents && !j.incidents[n].closed :: n in k.incidents)
  }

  lemma TouchesNothing(s: Sys, m: Marker)
    ensures Touches(s, s, m)
  {
  }

  lemma TouchesTrans(s: Sys, t: Sys, u: Sys, m: Marker)
    requires Touches(s, t, m) && Touches(t, u, m)
    ensures Touches(s, u, m)
  {
  }

  lemma SavingTouches(s: Sys, left: Journal, m: Marker)
    requires Prunes(s.mem.j, left)
    ensures forall t: Sys | t.mem == Discarding(s.mem, left) && t.creates == s.creates && t.landed == s.landed ::
              Touches(s, t, m)
  {
    forall t: Sys | t.mem == Discarding(s.mem, left) && t.creates == s.creates && t.landed == s.landed
      ensures Touches(s, t, m)
    {
      forall n
        ensures t.mem.dropped[n]
                == s.mem.dropped[n] + (if n in s.mem.j.incidents && n !in t.mem.j.incidents then 1 else 0)
      {
        IncidentTheorems.DiscardsCounted(s.mem, left, n);
      }
    }
  }

  // ---- everything a pass does ------------------------------------------------------------------

  /** Nothing created or landed is taken back; an incident still known has not moved back, and a discarded one
      has its issue; a create is asked for only where no issue was, under an incident pending or new. */
  ghost predicate Tended(s: Sys, t: Sys) {
    && (forall m :: s.landed[m] <= t.landed[m] && s.creates[m] <= t.creates[m] && s.mem.dropped[m] <= t.mem.dropped[m])
    && (forall m | m in s.mem.j.incidents ::
          if t.mem.dropped[m] == s.mem.dropped[m] then
            m in t.mem.j.incidents && Rank(s.mem.j.incidents[m].phase) <= Rank(t.mem.j.incidents[m].phase)
          else t.landed[m] > 0)
    && (forall m | t.creates[m] != s.creates[m] ::
          s.landed[m] == 0 && (m in s.mem.j.incidents ==> s.mem.j.incidents[m].phase == Pending))
  }

  lemma TendsNothing(s: Sys)
    ensures Tended(s, s)
  {
  }

  lemma TendedTrans(s: Sys, t: Sys, u: Sys)
    requires Tended(s, t) && Tended(t, u)
    ensures Tended(s, u)
  {
  }

  lemma TouchesTends(s: Sys, t: Sys, m: Marker, events: set<Event>)
    requires SysInv(s, events) && Touches(s, t, m)
    requires t.creates[m] == s.creates[m]
             || (s.landed[m] == 0 && m in s.mem.j.incidents && s.mem.j.incidents[m].phase == Pending)
    ensures Tended(s, t)
  {
    hide SysInv;
    forall n | n in s.mem.j.incidents && n !in t.mem.j.incidents
      ensures s.landed[n] > 0
    {
      ClosedHasIssue(s, n, events);
    }
  }

  lemma ClosedHasIssue(s: Sys, m: Marker, events: set<Event>)
    requires SysInv(s, events) && m in s.mem.j.incidents && s.mem.j.incidents[m].closed
    ensures s.landed[m] > 0
  {
    hide BookInv;
    assert IssueOk(s.mem.j.incidents[m], s.landed[m]);
  }

  lemma DeliveryTends(s: Sys, d: Delivery, env: Env, events: set<Event>)
    requires SysInv(s, events) && SenderLaw(events) && d.event in events && Enabled(s, Deliver(d, env))
    ensures Tended(s, Effect(s, Deliver(d, env))) && LivesOn(s.mem.j, Effect(s, Deliver(d, env)).mem.j)
  {
    assert s.mem.delivered + {d.event} <= events;
    hide BookInv, CreateInv, AfterDelivery;
    DeliveryLives(s.mem, d, env);
    IncidentTheorems.DeliveryDropsNone(s.mem, d, env);
    ReceivedEvents.DeliveredJournal(s.mem, d, env);
    hide CoversTables, Process;
  }

  // ---- all incidents in hand -------------------------------------------------------------------

  /** What a tracker may be relied on for: creates that land and answer at once, or everything asked. */
  datatype Promise = Promise(prompt: bool, full: bool)

  predicate Keeps(r: Replies, p: Promise) {
    && (p.prompt ==> r.lands && r.answers)
    && (p.full ==> r.lands && r.answers && r.indexed && r.taken && r.linked && r.stored)
  }

  /** The incident was advanced: it is not pending, and uncertain only with a create asked for; with prompt
      creates its issue is known, and with all promises kept it is admitted and its metadata written.  One
      that was uncertain without an issue before may be so for ever. */
  predicate InHand(inc: Incident, creates: nat, stuck: bool, p: Promise) {
    && inc.phase != Pending
    && (inc.phase == Uncertain ==> stuck || (!p.prompt && !p.full && creates > 0))
    && (p.full && inc.phase != Uncertain ==> inc.phase == Admitted && !inc.metadataDirty)
  }

  ghost predicate AllInHand(s: Sys, stuck: set<Marker>, p: Promise) {
    forall m | m in s.mem.j.incidents && !s.mem.j.incidents[m].closed ::
      InHand(s.mem.j.incidents[m], s.creates[m], m in stuck, p)
  }

  /** The incidents of the journal that are uncertain and have no issue to be found. */
  function Stuck(j: Journal, landed: multiset<Marker>): set<Marker> {
    set m | m in j.incidents && j.incidents[m].phase == Uncertain && landed[m] == 0
  }

  lemma AdvancedIsInHand(a: Incident, b: Incident, there: bool, r: Replies, creates: nat, stuck: bool, p: Promise)
    requires Advances(a, b, there, r) && r.granted && r.readable && Keeps(r, p)
    requires a.phase == Pending && !there ==> creates > 0
    requires a.phase == Uncertain && !there ==> stuck || (!p.prompt && !p.full && creates > 0)
    ensures InHand(b, creates, stuck, p)
  {
  }

  /** One more incident is in hand. */
  lemma TouchedStaysInHand(s: Sys, t: Sys, m: Marker, stuck: set<Marker>, p: Promise)
    requires Touches(s, t, m)
    requires forall n | n in s.mem.j.incidents && !s.mem.j.incidents[n].closed && n != m ::
               InHand(s.mem.j.incidents[n], s.creates[n], n in stuck, p)
    requires m in t.mem.j.incidents && !t.mem.j.incidents[m].closed ==>
               InHand(t.mem.j.incidents[m], t.creates[m], m in stuck, p)
    ensures AllInHand(t, stuck, p)
  {
    hide InHand;
  }

  /** All in hand, but for one incident that may be pending. */
  ghost predicate OthersInHand(s: Sys, r: Option<Marker>, stuck: set<Marker>, p: Promise) {
    && (forall m | m in s.mem.j.incidents && !s.mem.j.incidents[m].closed && r != Some(m) ::
          InHand(s.mem.j.incidents[m], s.creates[m], m in stuck, p))
    && (r.Some? && r.value in s.mem.j.incidents && s.mem.j.incidents[r.value].phase == Uncertain
        && s.landed[r.value] == 0 ==>
          r.value in stuck || (!p.prompt && !p.full && s.creates[r.value] > 0))
  }

  lemma RestInHand(s: Sys, r: Option<Marker>, stuck: set<Marker>, p: Promise)
    requires OthersInHand(s, r, stuck, p)
    requires r.Some? && r.value in s.mem.j.incidents ==> s.mem.j.incidents[r.value].closed
    ensures AllInHand(s, stuck, p)
  {
    hide InHand;
  }

  /** Advancing the one incident that was perhaps not in hand. */
  lemma AdvancedStaysInHand(s: Sys, t: Sys, m: Marker, r: Replies, stuck: set<Marker>, p: Promise)
    requires Touches(s, t, m) && m in s.mem.j.incidents && m in t.mem.j.incidents
    requires OthersInHand(s, Some(m), stuck, p)
    requires s.mem.j.incidents[m].phase == Pending && s.landed[m] == 0 ==> t.creates[m] > 0
    requires Advances(s.mem.j.incidents[m], t.mem.j.incidents[m], s.landed[m] > 0, r)
    requires r.granted && r.readable && Keeps(r, p)
    ensures AllInHand(t, stuck, p)
  {
    AdvancedIsInHand(s.mem.j.incidents[m], t.mem.j.incidents[m], s.landed[m] > 0, r, t.creates[m], m in stuck, p);
    hide Advances, InHand, Keeps, Touches;
    TouchedStaysInHand(s, t, m, stuck, p);
  }

  /** These of the incidents open before were advanced, each once, and the others wait for it. */
  ghost predicate Progressed(s: Sys, t: Sys, done: set<Marker>, replies: Marker -> Replies) {
    forall m | m in s.mem.j.incidents && !s.mem.j.incidents[m].closed :: ProgressedAt(s, t, m, m in done, replies(m))
  }

  ghost predicate ProgressedAt(s: Sys, t: Sys, m: Marker, done: bool, r: Replies)
    requires m in s.mem.j.incidents
  {
    && m in t.mem.j.incidents && !t.mem.j.incidents[m].closed
    && (if done then
          && Advances(s.mem.j.incidents[m], t.mem.j.incidents[m], s.landed[m] > 0, r)
          && t.creates[m] == s.creates[m] + (if r.granted && s.mem.j.incidents[m].phase == Pending && s.landed[m] == 0
                                             then 1 else 0)
        else
          t.mem.j.incidents[m] == s.mem.j.incidents[m] && t.landed[m] == s.landed[m] && t.creates[m] == s.creates[m])
  }

  lemma NothingProgressed(s: Sys, replies: Marker -> Replies)
    ensures Progressed(s, s, {}, replies)
  {
  }

  lemma ProgressStep(s: Sys, t: Sys, u: Sys, done: set<Marker>, m: Marker, replies: Marker -> Replies)
    requires Progressed(s, t, done, replies) && m !in done
    requires m in s.mem.j.incidents && !s.mem.j.incidents[m].closed
    requires Touches(t, u, m) && m in u.mem.j.incidents && !u.mem.j.incidents[m].closed
    requires m in t.mem.j.incidents
             && Advances(t.mem.j.incidents[m], u.mem.j.incidents[m], t.landed[m] > 0, replies(m))
    requires u.creates[m] == t.creates[m] + (if replies(m).granted && t.mem.j.incidents[m].phase == Pending
                                                && t.landed[m] == 0 then 1 else 0)
    ensures Progressed(s, u, done + {m}, replies)
  {
    hide Advances;
    forall n | n in s.mem.j.incidents && !s.mem.j.incidents[n].closed
      ensures ProgressedAt(s, u, n, n in done + {m}, replies(n))
    {
      assert ProgressedAt(s, t, n, n in done, replies(n));
    }
  }

  /** A closed incident has nothing to wait for. */
  lemma ProgressSkips(s: Sys, t: Sys, done: set<Marker>, m: Marker, replies: Marker -> Replies)
    requires Progressed(s, t, done, replies) && (m !in t.mem.j.incidents || t.mem.j.incidents[m].closed)
    ensures Progressed(s, t, done + {m}, replies)
  {
    hide Advances;
    forall n | n in s.mem.j.incidents && !s.mem.j.incidents[n].closed
      ensures ProgressedAt(s, t, n, n in done + {m}, replies(n))
    {
      assert ProgressedAt(s, t, n, n in done, replies(n));
    }
  }

  lemma ProgressEnds(s: Sys, t: Sys, done: set<Marker>, replies: Marker -> Replies)
    requires Progressed(s, t, done, replies) && s.mem.j.incidents.Keys <= done
    ensures Progressed(s, t, s.mem.j.incidents.Keys, replies)
  {
    hide ProgressedAt;
    forall n | n in s.mem.j.incidents && !s.mem.j.incidents[n].closed
      ensures ProgressedAt(s, t, n, n in s.mem.j.incidents.Keys, replies(n))
    {
      assert ProgressedAt(s, t, n, n in done, replies(n));
    }
  }

  /** When all were advanced, all are in hand. */
  lemma ProgressedIsInHand(s: Sys, t: Sys, replies: Marker -> Replies, p: Promise)
    requires Progressed(s, t, s.mem.j.incidents.Keys, replies)
    requires forall m | m in t.mem.j.incidents ::
               m in s.mem.j.incidents && t.mem.j.incidents[m].closed == s.mem.j.incidents[m].closed
    requires forall m :: replies(m).granted && replies(m).readable && Keeps(replies(m), p)
    ensures AllInHand(t, Stuck(s.mem.j, s.landed), p)
  {
    hide Advances, InHand, Keeps;
    forall m | m in t.mem.j.incidents && !t.mem.j.incidents[m].closed
      ensures InHand(t.mem.j.incidents[m], t.creates[m], m in Stuck(s.mem.j, s.landed), p)
    {
      assert ProgressedAt(s, t, m, true, replies(m));
      AdvancedIsInHand(s.mem.j.incidents[m], t.mem.j.incidents[m], s.landed[m] > 0, replies(m), t.creates[m],
                       m in Stuck(s.mem.j, s.landed), p);
    }
  }

  /** A delivery that answers a marker leaves every other open incident alone. */
  lemma AnswerLeavesOthers(j: Journal, k: Journal, r: Result<Option<Marker>>, d: Delivery, env: Env)
    requires ReceivedEvents.Answered(j, k, r, d, env) && r.Done?
    ensures forall m | m in k.incidents && !k.incidents[m].closed && r.value != Some(m) ::
              m in j.incidents && k.incidents[m] == j.incidents[m]
  {
    hide ReceivedEvents.Notes, ReceivedEvents.Owes, ReceivedEvents.Grew, ReceivedEvents.Reheard,
      ReceivedEvents.Hosted, ReceivedEvents.HostedWith, ReceivedEvents.Contradicts, ReceivedEvents.Heeded,
      ReceivedEvents.HasPlace, ReceivedEvents.NoneWaits, ReceivedEvents.Waits;
  }

  /** Incidents as they were, or fewer, stay in hand. */
  lemma FewerInHand(s: Sys, t: Sys, stuck: set<Marker>, p: Promise)
    requires forall m | m in t.mem.j.incidents :: m in s.mem.j.incidents && t.mem.j.incidents[m] == s.mem.j.incidents[m]
    requires t.creates == s.creates
    ensures AllInHand(s, stuck, p) ==> AllInHand(t, stuck, p)
  {
    hide InHand;
  }

  /** After a delivery and a save, all but the incident answered are in hand, and that one was if it is uncertain. */
  lemma ArrivalInHand(s: Sys, k: Journal, t: Sys, r: Option<Marker>, d: Delivery, env: Env, stuck: set<Marker>,
                      p: Promise, events: set<Event>)
    requires SysInv(s, events) && AllInHand(s, stuck, p) && LivesOn(s.mem.j, k)
    requires ReceivedEvents.Answered(s.mem.j, k, Done(r), d, env)
    requires forall m | m in t.mem.j.incidents :: m in k.incidents && t.mem.j.incidents[m] == k.incidents[m]
    requires t.creates == s.creates && t.landed == s.landed
    ensures OthersInHand(t, r, stuck, p)
  {
    hide SysInv, ReceivedEvents.Answered, LivesOn, InHand;
    AnswerLeavesOthers(s.mem.j, k, Done(r), d, env);
    if r.Some? && r.value in t.mem.j.incidents && t.mem.j.incidents[r.value].phase == Uncertain
       && t.landed[r.value] == 0 {
      UncertainWasInHand(s, k, r.value, stuck, p, events);
    }
  }

  lemma UncertainWasInHand(s: Sys, k: Journal, m: Marker, stuck: set<Marker>, p: Promise, events: set<Event>)
    requires SysInv(s, events) && AllInHand(s, stuck, p) && LivesOn(s.mem.j, k)
    requires m in k.incidents && k.incidents[m].phase == Uncertain && s.landed[m] == 0
    ensures m in stuck || (!p.prompt && !p.full && s.creates[m] > 0)
  {
    hide SysInv;
    if m in s.mem.j.incidents && s.mem.j.incidents[m].closed {
      ClosedHasIssue(s, m, events);
    }
  }

  /** Saving, moving the cursor and noting runs leave every incident alone, or discard it closed. */
  lemma LeavingTends(s: Sys, t: Sys, left: Journal, events: set<Event>)
    requires SysInv(s, events) && DropsClosed(s.mem.j.incidents, left.incidents)
    requires t.mem == Discarding(s.mem, left) && t.creates == s.creates && t.landed == s.landed
    ensures Tended(s, t)
  {
    hide SysInv;
    forall m
      ensures t.mem.dropped[m]
              == s.mem.dropped[m] + (if m in s.mem.j.incidents && m !in t.mem.j.incidents then 1 else 0)
    {
      IncidentTheorems.DiscardsCounted(s.mem, left, m);
    }
    forall m | m in s.mem.j.incidents && m !in t.mem.j.incidents
      ensures s.landed[m] > 0
    {
      ClosedHasIssue(s, m, events);
    }
  }

  lemma SameIncidentsTend(s: Sys, t: Sys)
    requires t.mem.j.incidents == s.mem.j.incidents && t.mem.dropped == s.mem.dropped
    requires t.creates == s.creates && t.landed == s.landed
    ensures Tended(s, t)
  {
  }

  // ---- what a whole pass leaves ----------------------------------------------------------------

  /** The incident was advanced by these replies, and has not moved back since. */
  ghost predicate WentOn(a: Incident, b: Incident, there: bool, r: Replies) {
    exists mid :: Advances(a, mid, there, r) && Rank(mid.phase) <= Rank(b.phase)
  }

  /** A create was asked for at most once, and only where there was no issue, under an incident that was pending
      or is new. */
  ghost predicate CreatesOnce(j: Journal, creates: multiset<Marker>, landed: multiset<Marker>,
                              after: multiset<Marker>) {
    forall m | after[m] != creates[m] ::
      && after[m] == 1 && creates[m] == 0 && landed[m] == 0
      && (m in j.incidents ==> j.incidents[m].phase == Pending)
  }

  /** The incidents open before were advanced: unless discarded since, each is at least as far as its replies
      allowed, and each that was pending without an issue has got its create. */
  ghost predicate AllWentOn(b: Book, creates: multiset<Marker>, landed: multiset<Marker>, c: Book,
                            after: multiset<Marker>, replies: Marker -> Replies) {
    forall m | m in b.j.incidents && !b.j.incidents[m].closed ::
      && (c.dropped[m] == b.dropped[m] ==>
            m in c.j.incidents && WentOn(b.j.incidents[m], c.j.incidents[m], landed[m] > 0, replies(m)))
      && (replies(m).granted && b.j.incidents[m].phase == Pending && landed[m] == 0 ==> after[m] == creates[m] + 1)
  }

  /** Every open incident, but for these, is past pending and has exactly one create; as promised, its issue
      exists, and it is admitted with its metadata written. */
  ghost predicate AllDone(j: Journal, creates: multiset<Marker>, landed: multiset<Marker>, stuck: set<Marker>,
                          p: Promise) {
    forall m | m in j.incidents && !j.incidents[m].closed && m !in stuck ::
      && j.incidents[m].phase != Pending && creates[m] == 1
      && (p.prompt || p.full ==> landed[m] == 1)
      && (p.full ==> j.incidents[m].phase == Admitted && !j.incidents[m].metadataDirty)
  }

  lemma PassCreates(s: Sys, t: Sys, events: set<Event>)
    requires SysInv(t, events) && Tended(s, t)
    ensures CreatesOnce(s.mem.j, s.creates, s.landed, t.creates)
  {
    hide BookInv, TrackerInv, ProgressOk;
  }

  lemma PassAdvances(s: Sys, mid: Sys, t: Sys, replies: Marker -> Replies, events: set<Event>)
    requires Progressed(s, mid, s.mem.j.incidents.Keys, replies) && Tended(s, mid) && Tended(mid, t)
    requires SysInv(t, events)
    ensures AllWentOn(s.mem, s.creates, s.landed, t.mem, t.creates, replies)
  {
    hide BookInv, TrackerInv, ProgressOk, Advances;
    forall m | m in s.mem.j.incidents && !s.mem.j.incidents[m].closed
      ensures t.mem.dropped[m] == s.mem.dropped[m] ==>
                m in t.mem.j.incidents
                && WentOn(s.mem.j.incidents[m], t.mem.j.incidents[m], s.landed[m] > 0, replies(m))
      ensures replies(m).granted && s.mem.j.incidents[m].phase == Pending && s.landed[m] == 0 ==>
                t.creates[m] == s.creates[m] + 1
    {
      assert ProgressedAt(s, mid, m, true, replies(m));
    }
  }

  lemma PassIsDone(t: Sys, stuck: set<Marker>, p: Promise, events: set<Event>)
    requires SysInv(t, events) && AllInHand(t, stuck, p)
    ensures AllDone(t.mem.j, t.creates, t.landed, stuck, p)
  {
    hide BookInv, ProgressOk;
    forall m | m in t.mem.j.incidents && !t.mem.j.incidents[m].closed && m !in stuck
      ensures t.creates[m] == 1 && (p.prompt || p.full ==> t.landed[m] == 1)
    {
      assert InHand(t.mem.j.incidents[m], t.creates[m], m in stuck, p);
      assert IssueOk(t.mem.j.incidents[m], t.landed[m]);
    }
    hide TrackerInv;
  }
}
