# Hexproof operations: health alerts, incidents, and what ships around them

This project models the operational tools of Hexproof and proves what they promise over whole runs.

**The alert pipeline** is two crash-prone machines joined by at-least-once delivery.

* The *sender* (`deploy/monitoring/health_alerts.py`) keeps one durable state: signal episodes, a bounded
  outbox, a bounded history and counters. `AlertLedger` holds the steps, `AlertSignals` the declarative
  meaning of a sample stream, `AlertQueue` the bookkeeping, `AlertRuns` every run with a durable and a
  volatile copy, crashes and arbitrary replies, `AlertEpisodes` and `AlertReports` what the issued events
  say about the signals and their samples, `AlertAnswers` and `AlertRetries` what a sample, an answer and a
  failed attempt leave of the queue, and `AlertStore` the program itself as a class whose methods are tied
  to those steps.
* The *receiver* (`tools/health-incident.py`) keeps a journal of runs, events, incidents and open groups.
  `IncidentJournal` holds `process`, `IncidentEpisodes` what an episode table tells, `IncidentInvariant`,
  `IncidentDelivery` and `IncidentPruning` what each step keeps, `JournalRoom` when none is refused,
  `IncidentRuns` every run with crashes, lost replies and creates that land late, `IncidentTheorems` the
  results, `ReceivedEvents` what becomes of each delivery, told on the tables before and after,
  `IncidentProgress` how far an incident gets with what the tracker answers, `RefoundedIncident` the one run that ends with a wrong count, `RunDiscovery` the paging of a
  history that grows while it is read, and `Reconciler` the program as a class.
* `Pipeline` joins any number of hosts with any number of reconcilers: the result does not depend on the
  order of delivery *because* of a law (`HealthEvents.SenderLaw`) that the sender is proved to keep, and
  an incident that has caught up shows as failing exactly the episodes that are failing on the hosts.

**Four smaller cores** follow: concurrent publishers of immutable assets and one swapped index
(`ContentPublication`, `ContentServer`); the WebSocket frames and reader of the smoke client (`Bytes`,
`WebSocketFrames`, `WebSocketReader`; sections 5.2 to 5.5 of RFC 6455); sealed release trees
(`SealedTree`) and the transactional installer (`HomeInstaller`); the interning of limited products
(`LimitedProducts`).

Assumptions, all visible as parameters, preconditions or enabledness conditions:

* the lock admits one process at a time; a save replaces the file atomically; a crash forgets what was
  not saved;
* digests of the contents at hand do not collide, and the printed links of a manifest never end in the print
  of other links; UUIDs are not drawn twice, on one host or several;
* replies are arbitrary, except that the native run history only grows at its head and keeps the payload of
  a run, that a stated total is the length of that history, that issues are never deleted, that
  `find_marker` answers "absent" only when no issue carries the marker, and that a reply to a create names
  an issue only if one exists;
* what the runtime-identity and configuration checks decide is a boolean that each call reads.

Where a promise of the code fails, the failure is a result. The count of an incident is *not* always the
number of distinct stored events carrying its marker: when a closed incident is discarded, the record of
its founding event is pruned while later ones are kept, and the founding event is delivered again, the
marker is founded anew over the old events; `RefoundedIncident` follows a run of 512 incidents to that end.
The count is exact if and only if that did not happen (`IncidentDelivery.FoundingCountIsExact` for the call,
`IncidentTheorems.OpenIncidentsAreExact` over all runs). And a pinned release tree is *not* fixed to the byte:
the records are read as text, so their line ends may differ (`SealedTree.LineEndsMayDiffer`), and nothing else.

## Model

| member | source | states |
|---|---|---|
| HealthEvents.LawOfUnion | deploy/monitoring/health_alerts.py:207-216 | Hosts that draw different UUIDs keep the sender law together. |
| AlertSignals.ObserveSignals | deploy/monitoring/health_alerts.py:223-254 | After any interleaved samples each signal's record is the one its own sample stream prescribes, its escalation count is the number of thresholds its failing run has reached, and the calls of `emit` made for it are exactly the announcements of that stream. |
| AlertSignals.AnnouncementsFollowGrammar | deploy/monitoring/health_alerts.py:42-42 | For every ok/fail stream the announcements are (failure escalation{0..3} recovery)*, ending wherever the stream does. |
| AlertQueue.ObserveQueue | deploy/monitoring/health_alerts.py:202-254 | A sample keeps conservation, numbering, counters, order, limits and the degraded flag, whether its event is queued or dropped. |
| AlertQueue.CountedQueue | deploy/monitoring/health_alerts.py:414-417 | Counting an attempt below the maximum keeps the queue's invariant. |
| AlertQueue.AnsweredQueue | deploy/monitoring/health_alerts.py:419-456 | Whatever the reply, the entry is retired, kept, backed off or exhausted so that every number keeps exactly one place, both sticky counters stay exact, and outstanding transport stays flagged. |
| AlertQueue.ExhaustedQueue | deploy/monitoring/health_alerts.py:403-408 | Setting an over-attempted entry aside keeps the queue's invariant. |
| AlertQueue.RedriveQueue | deploy/monitoring/health_alerts.py:460-467 | Re-arming exhausted events keeps the queue's invariant, flag included. |
| AlertQueue.InvocationQueue | deploy/monitoring/health_alerts.py:540-540 | The bounded invocation window keeps the queue's invariant. |
| AlertQueue.UnroutableQueue | deploy/monitoring/health_alerts.py:392-394 | An unreadable capability degrades the transport and keeps the rest. |
| AlertQueue.TrimmedCounts | deploy/monitoring/health_alerts.py:423-428 | Cutting the history loses no entry but the ones it discards, and those are counted. |
| AlertQueue.ReachedStatesAreValid | deploy/monitoring/health_alerts.py:85-121 | A state satisfying the invariant passes the structural checks of `valid_state`: limits, numbering, counters, statuses and references. |
| AlertRuns.StepKeepsInv | deploy/monitoring/health_alerts.py:175-199 | Every step, a crash and reload included, keeps the invariant of both copies and of what was sent. |
| AlertRuns.SentEventsAreLawful | deploy/monitoring/health_alerts.py:202-254 | Everything that ever left a host obeys the sender law across all crashes, and no two events share a number. |
| AlertRuns.SentIsDurable | deploy/monitoring/health_alerts.py:409-418 | A request carries an event that the state file already holds, with its digest and a counted attempt. |
| AlertRuns.SavedStatesAreValid | deploy/monitoring/health_alerts.py:85-121 | Every reachable state, saved or in memory, passes the structural checks of `valid_state`; its counters are exact; outstanding transport is degraded. |
| AlertRuns.NumbersAreConserved | deploy/monitoring/health_alerts.py:419-443 | Every saved number has exactly one event and that event exactly one place among outbox, history and discarded; only accepted entries were discarded; calls of `emit` are sequence plus dropped. |
| AlertRuns.CallsFollowGrammar | deploy/monitoring/health_alerts.py:223-254 | In every reachable state the calls per signal are the announcements of its stream and follow the episode grammar. |
| AlertRuns.SendsAreBounded | deploy/monitoring/health_alerts.py:399-456 | Between two redrives an event leaves at most `MAX_ATTEMPTS` times, whatever crashes and replies fall in between. |
| AlertEpisodes.EventsTellSignals | deploy/monitoring/health_alerts.py:223-254 | While nothing was dropped, an episode is current on a failing signal if and only if a failure or escalation of it was issued there and no recovery was. |
| AlertReports.EventsReportTheirStream | deploy/monitoring/health_alerts.py:202-254 | In every reachable state the announcements of a signal and its sample stream match one to one, and each event reports the stream as it stood at its sample: the time, since when the signal had been failing, the length of the failing run, the failures in all, the last success and the last complaint; and how many events were dropped before it. |
| AlertAnswers.SampleIsQueued | deploy/monitoring/health_alerts.py:202-220 | A sample announces once or not at all; the announcement takes the next number and waits, due at once, or, with 64 entries held, is counted as dropped and marks the transport; without one the queue is as before. |
| AlertAnswers.AnswerSettles | deploy/monitoring/health_alerts.py:419-455 | In every reachable state a terminal answer settles the entry with its run and moves it to the history of 32, from which the oldest accepted entry goes when it is full; nothing goes that is not accepted, and then the settled entry stays; skipped and unconfirmed admissions are counted; the transport is healthy afterwards exactly when the answer was an acceptance and nothing is owing. |
| AlertRetries.FailedAttemptWaits | deploy/monitoring/health_alerts.py:444-456 | In every reachable state, after its n-th failed attempt an event is pending and due in 60, 120, 240, 480 or 960 seconds for n from 1 to 5, and exhausted and counted after the sixth; the fault is noted, and nothing else in the outbox changes. |
| AlertStore.Store.constructor | deploy/monitoring/health_alerts.py:77-82 | An empty state starts a run. |
| AlertStore.Store.Load | deploy/monitoring/health_alerts.py:175-193 | Loading is the crash step: memory becomes what the file holds. |
| AlertStore.Store.Save | deploy/monitoring/health_alerts.py:195-199 | The file is replaced exactly when the state passes `valid_state`. |
| AlertStore.Store.Commit | deploy/monitoring/health_alerts.py:195-199 | In a reachable state saving always goes through. |
| AlertStore.Store.Emit | deploy/monitoring/health_alerts.py:202-220 | The fields after `emit`, numbered or dropped. |
| AlertStore.Store.Observe | deploy/monitoring/health_alerts.py:223-254 | One sample, refused only for a new signal beyond the limit. |
| AlertStore.Store.RecordRenewal | deploy/monitoring/health_alerts.py:536-545 | A renewal is recorded exactly when its invocation is not remembered and its signal fits; then record, sample and save are one run, the last 64 invocations are remembered, this one included, and otherwise nothing is left of it. |
| AlertStore.Store.Redrive | deploy/monitoring/health_alerts.py:460-467 | Exactly the exhausted entries are re-armed, each due at once with all its attempts, and their number is returned. |
| AlertStore.Store.Retire | deploy/monitoring/health_alerts.py:422-431 | A resolved entry moves to the history, unless the history holds only unresolved entries. |
| AlertStore.Store.Answer | deploy/monitoring/health_alerts.py:419-455 | The state after any reply is the one `AnswerSettles` and `FailedAttemptWaits` speak of. |
| AlertStore.Store.Attempt | deploy/monitoring/health_alerts.py:409-456 | One attempt is counted and saved, sent, answered and saved, in this order. |
| AlertStore.Store.DueEntries | deploy/monitoring/health_alerts.py:388-389 | The entries due, in queue order. |
| AlertStore.Store.Deliver | deploy/monitoring/health_alerts.py:384-457 | The requests that leave carry, in queue order and once each, the events of the due entries handled whose attempts are not used up, and of no entry that is not pending or not yet due; delivery stops only when none is left, at the limit, or when time is up, and otherwise every due entry with attempts left is sent. |
| AlertStore.Store.RunDeliver | deploy/monitoring/health_alerts.py:556-563 | The delivery command: asked to redrive, it sends every event that was exhausted on disk again, as long as limit and time last. |
| IncidentEpisodes.TellsIsUnique | tools/health-incident.py:761-795 | A set of events has at most one episode table that tells it. |
| IncidentEpisodes.MergeTells | tools/health-incident.py:761-795 | Merging one more event into a table that tells a set gives one that tells the larger set, in whatever order the events come. |
| IncidentInvariant.JoinKeepsCore | tools/health-incident.py:704-718 | Attaching one stored event to its incident keeps structure, sources, exact counts and what is retained of episodes that no closed incident listed. |
| IncidentDelivery.OpeningKeeps | tools/health-incident.py:600-617 | Closing an incident that maintenance closed, or leaving it, keeps all books. |
| IncidentDelivery.MarkerIsNew | tools/health-incident.py:775-782 | The marker built for a new incident never collides with a retained one. |
| IncidentDelivery.FoundingCountIsExact | tools/health-incident.py:775-782 | A new incident's count is exact if and only if no stored event already carried its marker. |
| IncidentDelivery.AdoptEvery | tools/health-incident.py:808-828 | Reassociating retained recoveries with a fault keeps the books for every iteration order of the table. |
| IncidentDelivery.AdoptionSettles | tools/health-incident.py:808-828 | Afterwards no retained recovery of the fault's episode is left unmatched. |
| IncidentDelivery.AgainKeeps | tools/health-incident.py:730-754 | A repeated delivery, an import included, changes no account. |
| IncidentDelivery.DeliveryKeeps | tools/health-incident.py:720-829 | Every delivery, first or repeated, accepted or refused at any point, keeps all books. |
| IncidentPruning.PruningKeepsObligations | tools/health-incident.py:856-867 | Pruning settles nothing: the obligations before and after are the same set. |
| IncidentPruning.PinnedSurvives | tools/health-incident.py:297-303 | Events of an open incident and unmatched recoveries are never discarded. |
| IncidentPruning.PruningKeeps | tools/health-incident.py:296-319 | Pruning keeps everything deliveries keep. |
| IncidentRuns.AbsenceMeansNeverCreated | tools/health-incident.py:638-647 | Seeing no issue under a pending incident proves that no create was ever asked for under its marker. |
| IncidentRuns.DeliveryLives | tools/health-incident.py:720-829 | A delivery leaves the lifecycle of every incident alone; an incident is closed only if it has an issue, and a new one starts pending. |
| IncidentRuns.StepKeepsInv | tools/health-incident.py:619-702 | Every step of the whole system keeps the books and the relation to the issue tracker. |
| JournalRoom.DeliveryAccepted | tools/health-incident.py:720-829 | While there is room, with an answering tracker and standing authority, the delivery of a run's own payload is accepted and takes no more than one entry of each table. |
| IncidentTheorems.AtMostOneCreate | tools/health-incident.py:630-662 | Over all runs at most one create is ever asked for per marker, so no marker has two issues. |
| IncidentTheorems.IntentPrecedesCreate | tools/health-incident.py:647-662 | A create is asked for only with its intent on disk and none asked for before. |
| IncidentTheorems.PhasesMoveForward | tools/health-incident.py:619-702 | Over any run, with whatever crashes, an incident on disk stays there and its saved phase never moves back along pending, uncertain, created, indexed, admission_pending, admitted, until a save discards it; this holds anew for every incident founded under the same marker later. |
| IncidentTheorems.OneOpenIncidentPerGroup | tools/health-incident.py:600-617 | The open table and the incidents not closed are in bijection by group. |
| IncidentTheorems.OpenIncidentsAreExact | tools/health-incident.py:704-718 | Over all runs the count of an open incident is exact if and only if its marker was not founded over events of an earlier incident; then its episodes and last date are exact too. |
| IncidentTheorems.EpisodesTellStored | tools/health-incident.py:761-795 | In every group, closed before or not, an open incident whose count is exact lists exactly the episodes of which it carries a fault, recovered exactly when it carries the recovery, each with the largest sequence carried. |
| IncidentTheorems.SameEventsSameIncident | tools/health-incident.py:704-718 | Two open incidents of any two runs that carry the same stored events agree on episodes, count and last date, unless one was founded over stored events. |
| RefoundedIncident.RefoundedIncidentMiscounts | tools/health-incident.py:296-316 | The count can be wrong: a run that delivers only lawful events and saves as `save` does, each time discarding the oldest entries beyond the limits and no others, ends with an open incident that counts one event while two stored events carry its marker. |
| IncidentTheorems.OpenIncidentHearsAll | tools/health-incident.py:730-829 | In a group none of whose episodes a closed incident listed, the open incident carries exactly the delivered events whose episode had a fault. |
| IncidentTheorems.LaterIncidentCarries | tools/health-incident.py:730-829 | In every group, however many incidents of it were closed: a delivered event of an episode that none of them listed is stored, and it is carried by the incident now open if and only if a fault of the episode was delivered. |
| IncidentTheorems.DeliveryOrderIsForgotten | tools/health-incident.py:720-829 | Two runs that delivered the same events of a group agree on its open incident, episodes, count and last date, whatever the order, duplicates, crashes and saves, while no closed incident listed any of its episodes. |
| IncidentTheorems.EpisodeOrderIsForgotten | tools/health-incident.py:720-829 | Episode by episode the order is forgotten in every group: two runs that delivered the same events of an episode no closed incident listed carry the same of them and show the same entry. |
| IncidentTheorems.EpisodesTellDeliveries | tools/health-incident.py:761-795 | In every group, closed before or not, the open incident lists an episode no closed incident listed if and only if a fault of it was delivered; it is recovered if and only if its recovery was, and its last sequence is the largest delivered. |
| IncidentTheorems.UnmatchedRecoveriesAreThose | tools/health-incident.py:765-768 | Of episodes no closed incident listed, a delivered recovery is kept unmatched if and only if no fault of its episode was delivered. |
| ReceivedEvents.OneIncidentPerEpisode | tools/health-incident.py:757-759 | Over all runs an episode is listed by at most one incident of its group, so the closed incident found for it is the same in any iteration order. |
| ReceivedEvents.SettledEpisodeIsObserved | tools/health-incident.py:755-762 | Over all runs, the first delivery of an event of any kind whose episode a closed incident of its group lists is noted under that incident and answered by it, whatever incident is open; no incident hears of it, and nothing is owed for it beyond what is in question about its run. |
| ReceivedEvents.RecoveryIsTold | tools/health-incident.py:763-794 | Over all runs, the first delivery of a recovery of any other episode is carried by the open incident if that lists the episode, which is recovered from then on unless a later event of it was recorded; otherwise it waits, and waiting is owed. |
| ReceivedEvents.FaultIsHosted | tools/health-incident.py:774-829 | Over all runs, the first delivery of a failure or escalation of any other episode is carried by the group's open incident, or founds one with a fresh marker when there is none; a recovery that waited for it is taken along, its run record with it, and no longer owed. |
| ReceivedEvents.FirstDeliveryIsReceived | tools/health-incident.py:755-829 | Over all runs, a first delivery is refused exactly when the tracker or the saved authority does not answer for the open incident, its run stands for another event, or a fault finds no place; and otherwise one of these three things becomes of it. |
| ReceivedEvents.RepeatIsReceived | tools/health-incident.py:730-754 | Over all runs, a repeated delivery is refused exactly when it contradicts what is stored or lacks authority; otherwise its run is noted as a duplicate, its incident hears of it without counting it, and only an operator's import changes the event's record. |
| RunDiscovery.ReadOn | tools/health-incident.py:511-538 | One page further, whatever was inserted at the head, the part read down to the boundary is still the first history's. |
| RunDiscovery.CheckPage | tools/health-incident.py:517-535 | A page passes only with no row listed before, and tells whether it holds the boundary. |
| RunDiscovery.ReadPage | tools/health-incident.py:511-541 | One page either answers soundly or keeps what the loop knows, whatever was inserted before it. |
| RunDiscovery.Runs | tools/health-incident.py:494-542 | Reading either fails or gives, down to the boundary, exactly the history as it stood at the first read; a readable history that does not grow and fits the window is refused only if the boundary is no longer in it. |
| Reconciler.Reconciler.Load | tools/health-incident.py:262-294 | Loading is the restart step. |
| Reconciler.PruneTable | tools/health-incident.py:304-312 | Nothing pinned goes, nothing goes below the limit, and the oldest go first. |
| Reconciler.PruneIncidents | tools/health-incident.py:313-316 | Exactly the closed incidents beyond the limit go, those with the oldest last event first. |
| Reconciler.Reconciler.Discard | tools/health-incident.py:304-318 | The three tables and the incidents are pruned in place; the answer tells whether they fit. |
| Reconciler.Reconciler.Save | tools/health-incident.py:296-333 | The file is replaced exactly when the pruned journal is within its table limits, and always when it was before; what is left is what the limits prescribe, and the obligations are the same set as before. |
| Reconciler.Reconciler.Attach | tools/health-incident.py:704-718 | The incident's count, last date and dirty flag after one event. |
| Reconciler.Reconciler.OpenIncident | tools/health-incident.py:600-617 | The open incident of a group, closed on the way if maintenance closed it. |
| Reconciler.Reconciler.AdoptRecoveries | tools/health-incident.py:808-828 | The tables after reassociating every retained recovery of the episode. |
| Reconciler.Reconciler.ReceiveAgain | tools/health-incident.py:730-754 | The tables after a repeated delivery or its refusal are those `RepeatIsReceived` speaks of. |
| Reconciler.Reconciler.ReceiveFirst | tools/health-incident.py:755-829 | The tables after a first delivery or its refusal are those `FirstDeliveryIsReceived` speaks of. |
| Reconciler.Reconciler.Process | tools/health-incident.py:720-829 | Whatever the tracker answers and however the tables iterate, `process` is one delivery step of the proved system; what it answers and the tables afterwards are told on the tables before; and it refuses for want of an answer or of authority only when one is wanting. |
| Reconciler.Reconciler.FindMarker | tools/health-incident.py:544-571 | Read to its end, the tracker answers absent exactly when no issue carries the marker, and otherwise its one issue; it is unproven exactly when it could not be read. |
| Reconciler.Reconciler.Resume | tools/health-incident.py:630-636 | An uncertain incident takes over its issue exactly when one is found, is saved, and is never created again. |
| Reconciler.Reconciler.CreateIssue | tools/health-incident.py:644-657 | Intent, save, create, save, in this order; the incident is created exactly when the create landed and was answered, and uncertain otherwise. |
| Reconciler.Reconciler.Begin | tools/health-incident.py:637-657 | A pending incident is created exactly when no issue carries its marker, and otherwise takes over the issue found; it fails only when the tracker cannot be read or the journal does not fit. |
| Reconciler.Reconciler.Index | tools/health-incident.py:658-672 | The metadata is marked clean, and a created incident indexed, exactly when what is read back is what was to be stored. |
| Reconciler.Reconciler.Assign | tools/health-incident.py:673-682 | Admission is pending exactly when the issue is with the coordinator and out of the backlog. |
| Reconciler.Reconciler.AdmitTask | tools/health-incident.py:683-699 | The incident is admitted exactly when a task of the coordinator is linked, and its metadata clean exactly when that was read back. |
| Reconciler.Reconciler.Advance | tools/health-incident.py:619-702 | The incident gets exactly as far as the replies allow: a create is asked for exactly when a pending incident has no issue; created becomes indexed iff the metadata was stored, indexed becomes admission pending iff the assignment was taken, that becomes admitted iff a task is linked, and the metadata stays to be written iff the last read-back did not agree; nothing happens without authority, and whatever changed is saved. |
| Reconciler.Reconciler.TakeEvent | tools/health-incident.py:921-924 | One event is delivered and saved, or refused for a stated cause. |
| Reconciler.Reconciler.DeliverRun | tools/health-incident.py:920-926 | The run's event is delivered and saved, and the incident it belongs to advanced by the replies if it is open. |
| Reconciler.Reconciler.ReceiveRun | tools/health-incident.py:892-926 | A run of the prefix is skipped exactly when it was entered and nothing about it is in question, noted as pending exactly when its native status is not final, noted as without payload when it carries no event of a configured group, and otherwise its event is delivered, unless an error ends the pass. |
| Reconciler.Reconciler.AdvanceAll | tools/health-incident.py:883-885 | Every incident open before is advanced once, by the replies for it. |
| Reconciler.Reconciler.ReceiveRuns | tools/health-incident.py:889-927 | Every run above the cursor is taken, oldest first. |
| Reconciler.Reconciler.Checkpoint | tools/health-incident.py:929-932 | The cursor moves to the newest run read, never past a pending one. |
| Reconciler.Reconciler.Reconcile | tools/health-incident.py:934-984 | However the pass ends, every configured webhook run at or below the saved cursor was entered and its valid event of a configured group was delivered, on disk; the cursor moves exactly when the pass is complete; no pass ever stops for two issues of one marker; over a calm, readable history a pass with room for every new run, an answering tracker and standing authority is complete unless a run still waits, and so is one with nothing to do. A create is asked for at most once per marker, and only where no issue was, for an incident pending or new. When the runs were taken, every incident open before has got at least as far as its replies allowed, unless it was discarded since, and if it was pending without an issue it has got its create; with a cooperative tracker every open incident, but for those that were uncertain without an issue before, is past pending with exactly one create, its issue exists if creates land and are answered, and it is admitted with clean metadata if all else asked is done. |
| Reconciler.Reconciler.CoverageOfLaterHistory | tools/health-incident.py:494-500 | What a cursor covers it still covers when the history has grown. |
| Reconciler.Reconciler.ReconcileAll | tools/health-incident.py:934-984 | Over any number of passes, with creates that take effect in between and a history that grows between and during them, every run that some complete pass found stays entered and delivered on disk, the cursor always names a run of the history and covers what is below it, and a calm history is never refused. |
| Reconciler.Reconciler.IsReachable | tools/health-incident.py:228-246 | Whatever its methods did, the program is in a state the theorems about all runs speak of. |
| Pipeline.FleetIsLawful | deploy/monitoring/health_alerts.py:202-254 | What any number of hosts sent obeys the law together. |
| Pipeline.OrderIsForgottenEndToEnd | tools/health-incident.py:720-829 | Reconcilers fed by real senders agree on a group whatever the order, duplicates and crashes on either side. |
| Pipeline.EpisodeOrderIsForgottenEndToEnd | tools/health-incident.py:720-829 | Reconcilers fed by real senders show the same entry for an episode of which they were delivered the same, also in groups closed before. |
| Pipeline.StatusIsFaithful | tools/health-incident.py:761-795 | Once a reconciler has caught up with hosts that dropped nothing, its incident shows as failing exactly the current episodes of the signals failing on the hosts, among those no closed incident listed. |
| ContentPublication.FollowsTrans | tools/public-content.py:119-127 | May-follow composes: no revision falls, no announcement disappears, no notification revision falls over any chain of updates. |
| ContentPublication.StepKeepsInv | deploy/publish-public-content.py:25-76 | Every remote operation by any publisher keeps the live index backed and every publisher's findings true. |
| ContentPublication.SwapIsSound | deploy/publish-public-content.py:54-73 | What is swapped in is backed by what was placed and may follow what it replaces. |
| ContentPublication.IndexOnlyMovesOn | deploy/publish-public-content.py:91-116 | Under any interleaving and crash, and with assets that land after their publisher gave up, the live index is only ever replaced by one that may follow it, and no asset changes. |
| ContentPublication.SwapsAtMostOnce | deploy/publish-public-content.py:54-73 | Over all runs a publisher swaps the index at most once for each time it began. |
| ContentPublication.LiveIndexIsBacked | deploy/publish-public-content.py:37-73 | Every descriptor of the live index, and every avatar its sponsors name, has a present asset with the stated digest. |
| ContentPublication.NothingPublishedIsTakenBack | tools/public-content.py:119-127 | Between any two moments revisions do not fall, a revision names one content, no announcement disappears and no notification revision falls. |
| ContentPublication.FetchedIndexStaysBacked | deploy/publish-public-content.py:37-53 | A client that fetched an index finds everything it names for as long as it likes. |
| ContentServer.Server.Asset | deploy/publish-public-content.py:37-53 | An asset is created once; only the same bytes are accepted again; either may happen with the answer lost. |
| ContentServer.Server.ReplaceIndex | deploy/publish-public-content.py:54-73 | The index is replaced exactly when it is still the one expected and the request arrives, whether or not the answer does. |
| ContentServer.Server.Compare | deploy/publish-public-content.py:96-104 | Both published documents are compared with their successors, and pass whenever they may be followed. |
| ContentServer.Server.AskSwap | deploy/publish-public-content.py:79-88 | Asking for the swap with the answer possibly lost: refused, it did not happen; answered, it happened exactly if the index was still the one seen; lost, it happened or is still to come. |
| ContentServer.Server.Finish | deploy/publish-public-content.py:111-116 | Swap and public read-back: confirmed only when the new index is read back, and otherwise the swap was refused, happened once, or may still come once. |
| ContentServer.Server.Publish | deploy/publish-public-content.py:79-116 | With other publishers active between all requests and any answer lost: published means exactly one swap; stopped by a check, a comparison, an asset refused or unconfirmed, a file not served or a changed index means none, ever, though an unconfirmed asset may still arrive; unconfirmed means at most one; alone and answered it succeeds for every package that may follow what is live. |
| ContentServer.ReadPackage | tools/public-content.py:167-192 | A package is read if and only if its index, documents and avatars are all there with the digests and revisions stated, and then it is whole. |
| Bytes.XorTwice | tools/smoke-home-node.py:86-86 | Masking a byte twice with one key byte gives it back. |
| WebSocketFrames.BigEndianRound | tools/smoke-home-node.py:83-84 | Packed lengths read back. |
| WebSocketFrames.ParseEncoded | tools/smoke-home-node.py:93-103 | A server frame with any length width reads back, and the rest of the stream is left. |
| WebSocketFrames.GotWasEncoded | tools/smoke-home-node.py:93-103 | Whatever is read was the encoding of a frame. |
| WebSocketFrames.ReceivesConcatenation | tools/smoke-home-node.py:91-115 | A message within the bound, in any fragments with any pings and pongs between them, is read as their concatenation; its pings and the bytes after it are exact. |
| WebSocketFrames.MessagesAreFragments | tools/smoke-home-node.py:91-115 | Nothing else is read as a message. |
| WebSocketFrames.UnframesToInput | tools/smoke-home-node.py:79-86 | A server decodes what the client framed, whatever the mask. |
| WebSocketReader.WebSocket.Read | tools/smoke-home-node.py:69-77 | For every chunking of the stream exactly the next bytes are returned and none is lost or read ahead. |
| WebSocketReader.WebSocket.Handshake | tools/smoke-home-node.py:50-57 | The header ends at the first blank line, and what follows it is still there. |
| WebSocketReader.WebSocket.Frame | tools/smoke-home-node.py:79-86 | One frame goes out, with the opcode and data given. |
| WebSocketReader.WebSocket.Receive | tools/smoke-home-node.py:91-115 | For every chunking, the outcome, the pongs and the rest are those of the stream. |
| WebSocketReader.WebSocket.ReceiveFragments | tools/smoke-home-node.py:91-115 | A fragmented message arrives whole, with one pong per ping in order. |
| WebSocketReader.HearsWhatWasMeant | tools/smoke-home-node.py:79-86 | A server decoding everything sent hears exactly the frames meant and is left with no byte. |
| SealedTree.RecordSplits | deploy/install-home-node.py:77-77 | A record splits at its digest even when the path holds spaces. |
| SealedTree.RecordLines | tools/package-home-node.py:113-129 | The records text splits into one record per regular file, in order. |
| SealedTree.Seal | tools/package-home-node.py:113-131 | Sealing refuses exactly an escaping link; otherwise it writes the records and manifest of the tree. |
| SealedTree.VerifyTree | deploy/install-home-node.py:63-98 | A tree is accepted, with or without a pin, exactly when its manifest parses, is the one pinned if there is a pin, and is genuine: every node beyond the metadata is a regular file with the digest recorded for it or a listed link with its target, and nothing recorded or listed is missing. |
| SealedTree.VerifiedIsGenuine | deploy/install-home-node.py:69-97 | The checks over records, links and directory listing come to exactly that. |
| SealedTree.DigestFixesTree | deploy/install-home-node.py:73-97 | Two trees accepted without any pin whose manifests state the same tree digest have the same nodes apart from the metadata. |
| SealedTree.SealedTreesVerify | tools/package-home-node.py:113-131 | Every sealed tree is accepted, without a pin and under its own manifest's digest. |
| SealedTree.PinFixesTree | deploy/install-home-node.py:63-98 | Two trees accepted under one pin have the same nodes, except that the lines of their records may end differently. |
| SealedTree.LineEndsDoNotMatter | deploy/install-home-node.py:73-74 | Trees that differ only in how the lines of their records end are accepted or refused alike. |
| SealedTree.PinnedTreeIsTheSealedOne | deploy/install-home-node.py:63-98 | A tree accepted under the digest sealed from t has exactly the files, contents and links of t, its sealed manifest, and its sealed records once line ends are read alike. |
| SealedTree.LineEndsMayDiffer | deploy/install-home-node.py:73-74 | No more can be said: the sealed tree with carriage returns written into its records is another tree, accepted under the same pin. |
| HomeInstaller.RestoringUndoes | deploy/install-home-node.py:377-394 | Putting the baseline back undoes any change of what it covers, wherever the change stopped. |
| HomeInstaller.Host.TryActivate | deploy/install-home-node.py:362-376 | An activation that fails anywhere has changed only managed files, the link and its units' flags; one that succeeds has set all of them. |
| HomeInstaller.Host.Restore | deploy/install-home-node.py:377-394 | Files, link and both unit flags are the baseline's afterwards. |
| HomeInstaller.Host.WriteRecord | deploy/install-home-node.py:351-361 | The record and its numbered copies read back as the baseline. |
| HomeInstaller.Host.Preflight | deploy/install-home-node.py:289-330 | An installation goes ahead exactly when the request is acceptable, fits the installed role and names a new release. |
| HomeInstaller.Host.Install | deploy/install-home-node.py:307-397 | Unless it ends activated the managed state is as before; if it does, the release is in place and the record of the state before is kept. |
| HomeInstaller.Host.Rollback | deploy/install-home-node.py:400-446 | Exactly a managed record with its copies and its release is accepted, and then all it speaks of is put back. |
| HomeInstaller.Host.InstallAndRollBack | deploy/install-home-node.py:400-446 | A successful installation followed by its rollback leaves everything as it was. |
| HomeInstaller.Host.CrashAndRollBack | deploy/install-home-node.py:351-394 | An installation cut short by a crash at any step after its record was written, even while restoring, followed by the rollback of that record leaves everything as it was. |
| LimitedProducts.InterningLosesNothing | tools/card-database-builder/build_limited_products.py:66-80 | Every index is in range, and replacing references gives back the sheets in order. |
| LimitedProducts.PoolIsTight | tools/card-database-builder/build_limited_products.py:72-76 | Pool entries are distinct, weigh one, and are all used. |
| LimitedProducts.NoSmallerPool | tools/card-database-builder/build_limited_products.py:66-80 | No pool from which the product can be read back is smaller. |
| LimitedProducts.InternSheet | tools/card-database-builder/build_limited_products.py:69-78 | The pool grows by the identities not seen before, in order, and the references point into it. |
| LimitedProducts.CompactProduct | tools/card-database-builder/build_limited_products.py:62-81 | The result reads back as the product, is never larger, and is interned exactly when that makes a large product smaller. |

## Left out

- Sizes in bytes of the alert state and the journal, deadlines, log rotation, file permissions, locking and
  fsync: a save is atomic and only table limits refuse it.
- Timestamps are integers and UUIDs natural numbers; the ISO and UUID text checks of `valid_state` and of
  the journal loader are not modelled, nor is a corrupt file, which both programs refuse.
- Evidence that neither machine branches on: errors, endpoints, remaining seconds, state recoveries,
  `lastRecovery`, `lastAttemptAt`, `latest`, provenance, `runIds`, `lastEventId`, `lastRunId`, report text.
- Runtime receipts (`runtime_binding`, `runtime_event`, `apply_runtime`, `ingest`) and the operator-import
  command around `process`: they are further callers of `process`, and their authority checks are one
  boolean per call.
- `IncidentRuns.StepKeepsInv`: a byte limit or a lost native tracker is not among its steps.
- `IncidentTheorems.DeliveryOrderIsForgotten`: once an incident of the group was closed, count and last date
  depend on the moment of closing; `EpisodeOrderIsForgotten` holds there episode by episode.
- `Pipeline.OrderIsForgottenEndToEnd`: likewise, with `EpisodeOrderIsForgottenEndToEnd`.
- `IncidentTheorems.EpisodesTellDeliveries`: an episode that a closed incident listed is left to that
  incident, which keeps its later events until it is discarded.
- `IncidentTheorems.UnmatchedRecoveriesAreThose`: the same episodes are excluded.
- `AlertQueue.ReachedStatesAreValid`: the UUID, time and invocation text checks of `valid_state` have no
  counterpart, since those texts are numbers or plain strings here.
- `AlertRuns.SavedStatesAreValid`: the same text checks.
- `AlertStore.Store.Load`: a corrupt or oversized file, which the program refuses, is not modelled.
- `AlertStore.Store.Save`: the size of the file in bytes is not modelled.
- `AlertStore.Store.Commit`: the same size.
- `Reconciler.Reconciler.Load`: a corrupt journal and the migration of an older one are not modelled.
- `Reconciler.Reconciler.Save`: the size of the journal in bytes is not modelled.
- `Reconciler.Reconciler.Attach`: provenance, `runIds`, `lastEventId` and `lastRunId` are not modelled.
- `Reconciler.Reconciler.FindMarker`: the tracker answers as a whole; its pages are not read one by one.
- `Reconciler.Reconciler.Advance`: the requests by which an issue is indexed and handed over, and the metadata
  value itself, are not modelled; what the tracker finally answers for each is.
- `Reconciler.Reconciler.Reconcile`: the pass that is promised to end well finds no imported events, has
  every event come through one trigger, and meets no conflict of run identities.
- `ContentServer.ReadPackage`: size limits and most of the document schema are not modelled.
- `HomeInstaller.Host.Preflight`: the checks of bundle, configuration and versions are one boolean.
- `RunDiscovery.Runs`: within one pass a row keeps its status from page to page; between passes it may
  change.
- `Pipeline.StatusIsFaithful`: a host that dropped an event, or whose events were not all delivered, is
  outside it, and so is an episode that maintenance closed with its incident.
- The text of titles, descriptions and metadata of issues.
- The schema of sponsors and announcements beyond identity, revision, avatar and notification revision.
- `WebSocketReader.WebSocket.Handshake`: the upgrade request, its accept proof and TLS are not modelled.
- JSON decoding of received messages, `send`, `until` and the smoke scenarios.
- Directories, modes and timestamps of a sealed tree; resolving a path is an attribute of the tree.
- `HomeInstaller.Host.Install`: the owner of a restored file, the created system account and state
  directories, and units started by another unit's dependencies are not part of the managed state.
- `build_product`, card identities and the other modes of the card database builder.
- `deploy-home-release.py`, `promote-release.py`, `publish-server-directory.py`, the native drivers, code
  generators, interface checks and the Qt and SQLite parts: they are not part of this model.
