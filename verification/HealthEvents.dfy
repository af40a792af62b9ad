/** The health event both machines exchange, and the law its sender keeps.

    UUIDs are natural numbers, UTC timestamps are integers.  The evidence fields that neither side
    branches on (errors, endpoints, remaining seconds) are one opaque string.  */
module HealthEvents {

  datatype Option<+T> = None | Some(value: T)

  datatype Signal = Tls | Renewal

  datatype Kind = Failure | Escalation | Recovery

  datatype Event = Event(
    eventId: nat,
    source: string,
    group: string,
    signal: Signal,
    kind: Kind,
    episodeId: nat,
    sequence: nat,
    occurredAt: int,
    firstFailureAt: Option<int>,
    consecutiveFailures: nat,
    totalFailures: nat,
    lastSuccessAt: Option<int>,
    evidence: string,
    droppedEvents: nat)

  /** What the receiver may rely on about two events of one deployment. */
  ghost predicate Coherent(e: Event, f: Event) {
    && (e.eventId == f.eventId ==> e == f)
    && (e.episodeId == f.episodeId ==>
          && e.source == f.source && e.group == f.group && e.signal == f.signal
          && (e.kind == Recovery && f.kind == Recovery ==> e == f)
          && (e.kind == Recovery && f.kind != Recovery ==> f.sequence < e.sequence)
          && (f.kind == Recovery && e.kind != Recovery ==> e.sequence < f.sequence))
  }

  /** The sender law: event IDs name one event each, an episode belongs to one signal of one source,
      and its recovery, of which there is at most one, carries the episode's largest sequence. */
  ghost predicate SenderLaw(events: set<Event>) {
    forall e, f | e in events && f in events :: Coherent(e, f)
  }

  /** The laws of several hosts combine when their UUIDs are disjoint. */
  lemma LawOfUnion(a: set<Event>, b: set<Event>)
    requires SenderLaw(a) && SenderLaw(b)
    requires forall e, f | e in a && f in b :: e.eventId != f.eventId && e.episodeId != f.episodeId
    ensures SenderLaw(a + b)
  {
    forall e, f | e in a + b && f in a + b
      ensures Coherent(e, f)
    {
      if (e in a && f in b) || (e in b && f in a) {
      }
    }
  }
}
