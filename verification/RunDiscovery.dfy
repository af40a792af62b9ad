/** Reading the native run history, newest first, while it grows at the head between page reads. */
module RunDiscovery {
  import opened HealthEvents
  import opened IncidentJournal

  const RUN_PAGE: nat := 50
  const RUN_PAGES: nat := 10

  /** One native run as a page lists it; `payload` is its event when it is valid for its trigger. */
  datatype Row = Row(id: nat, webhook: bool, trigger: nat, admission: Admission, taskId: Option<nat>, triggeredAt: int,
                     payload: Option<Event>)

  datatype DiscoveryError = RunsUnavailable | RunsOrderUnproven | RunPaginationLimit | RunBoundaryMissing

  datatype Discovered = Found(rows: seq<Row>) | Refused(error: DiscoveryError)

  /** The history when page `p` is read: rows inserted meanwhile come before those already there. */
  function History(first: seq<Row>, growth: nat -> seq<Row>, p: nat): seq<Row> {
    if p == 0 then first else growth(p) + History(first, growth, p - 1)
  }

  /** How many rows were inserted since the first read. */
  function Inserted(first: seq<Row>, growth: nat -> seq<Row>, p: nat): (n: nat)
    ensures |History(first, growth, p)| == n + |first|
  {
    GrowsAtHead(first, growth, p);
    |History(first, growth, p)| - |first|
  }

  lemma GrowsAtHead(first: seq<Row>, growth: nat -> seq<Row>, p: nat)
    ensures |first| <= |History(first, growth, p)|
    ensures History(first, growth, p)[|History(first, growth, p)| - |first|..] == first
  {
  }

  lemma InsertedGrows(first: seq<Row>, growth: nat -> seq<Row>, p: nat)
    requires p > 0
    ensures Inserted(first, growth, p - 1) <= Inserted(first, growth, p)
  {
  }

  function Page(history: seq<Row>, p: nat): (rows: seq<Row>)
    ensures |rows| <= RUN_PAGE
  {
    var lo := p * RUN_PAGE;
    var hi := lo + RUN_PAGE;
    if |history| <= lo then [] else if |history| <= hi then history[lo..] else history[lo..hi]
  }

  predicate DistinctIds(rows: seq<Row>) {
    forall i, j | 0 <= i < j < |rows| :: rows[i].id != rows[j].id
  }

  function Ids(rows: seq<Row>): set<nat> {
    set i | 0 <= i < |rows| :: rows[i].id
  }

  predicate AtBoundary(row: Row, boundary: Option<Cursor>) {
    boundary.Some? && row.id == boundary.value.runId && row.triggeredAt == boundary.value.triggeredAt
  }

  /** What the native service guarantees: IDs are unique for ever, and a run already known to the
      journal as its boundary is never inserted again. */
  ghost predicate AppendOnly(first: seq<Row>, growth: nat -> seq<Row>, boundary: Option<Cursor>) {
    && (forall p: nat :: DistinctIds(History(first, growth, p)))
    && (forall p: nat, i | p > 0 && 0 <= i < |growth(p)| :: !AtBoundary(growth(p)[i], boundary))
  }

  /** The rows read, down to and including the boundary, are exactly the first history's. */
  ghost predicate Prefix(rows: seq<Row>, first: seq<Row>, boundary: Option<Cursor>) {
    if boundary.None? then rows == first
    else exists i :: 0 <= i < |first| && i < |rows| && AtBoundary(first[i], boundary) && rows[..i + 1] == first[..i + 1]
  }

  // ---- where a page falls ----------------------------------------------------------------------

  lemma InsertedIsNotBoundary(first: seq<Row>, growth: nat -> seq<Row>, p: nat, i: nat, boundary: Option<Cursor>)
    requires AppendOnly(first, growth, boundary) && i < Inserted(first, growth, p)
    ensures !AtBoundary(History(first, growth, p)[i], boundary)
  {
    if p > 0 {
      if i < |growth(p)| {
        assert !AtBoundary(growth(p)[i], boundary);
      } else {
        InsertedIsNotBoundary(first, growth, p - 1, i - |growth(p)|, boundary);
      }
    }
  }

  /** Before anything is inserted a page is a stretch of the first history. */
  lemma QuietPage(first: seq<Row>, growth: nat -> seq<Row>, p: nat)
    requires Inserted(first, growth, p) == 0 && RUN_PAGE * p <= |first|
    ensures History(first, growth, p) == first
    ensures first[..RUN_PAGE * p] + Page(first, p) == first[..RUN_PAGE * p + |Page(first, p)|]
    ensures |Page(first, p)| < RUN_PAGE ==> RUN_PAGE * p + |Page(first, p)| == |first|
  {
    GrowsAtHead(first, growth, p);
    PageContinues(first, p);
    hide Page;
  }

  lemma PageContinues(first: seq<Row>, p: nat)
    requires RUN_PAGE * p <= |first|
    ensures var n := RUN_PAGE * p + |Page(first, p)|; n <= |first| && Page(first, p) == first[RUN_PAGE * p..n]
    ensures first[..RUN_PAGE * p] + Page(first, p) == first[..RUN_PAGE * p + |Page(first, p)|]
    ensures |Page(first, p)| < RUN_PAGE ==> RUN_PAGE * p + |Page(first, p)| == |first|
  {
    var lo := RUN_PAGE * p;
    assert Page(first, p) == first[lo..lo + |Page(first, p)|];
  }

  /** Rows inserted since the first read push rows already read into the page, unless they fill it. */
  lemma ShiftedPage(first: seq<Row>, growth: nat -> seq<Row>, p: nat, read: nat)
    requires 0 < read <= |first| && 0 < Inserted(first, growth, p) < RUN_PAGE * (p + 1)
    requires RUN_PAGE * p < Inserted(first, growth, p) + read
    ensures exists k, i :: 0 <= k < |Page(History(first, growth, p), p)| && 0 <= i < read
                           && Page(History(first, growth, p), p)[k] == first[i]
  {
    var h, n, lo := History(first, growth, p), Inserted(first, growth, p), RUN_PAGE * p;
    GrowsAtHead(first, growth, p);
    var at := if n <= lo then lo else n;
    assert h[at] == first[at - n];
    assert Page(h, p)[at - lo] == h[at];
  }

  /** A page filled by inserted rows is full and holds no boundary. */
  lemma NewPage(first: seq<Row>, growth: nat -> seq<Row>, p: nat, boundary: Option<Cursor>)
    requires AppendOnly(first, growth, boundary) && Inserted(first, growth, p) >= RUN_PAGE * (p + 1)
    ensures |Page(History(first, growth, p), p)| == RUN_PAGE
    ensures forall k | 0 <= k < RUN_PAGE :: !AtBoundary(Page(History(first, growth, p), p)[k], boundary)
  {
    var h := History(first, growth, p);
    forall k | 0 <= k < RUN_PAGE
      ensures !AtBoundary(Page(h, p)[k], boundary)
    {
      InsertedIsNotBoundary(first, growth, p, RUN_PAGE * p + k, boundary);
    }
  }

  // ---- the invariant of the page loop ----------------------------------------------------------

  /** After `p` pages: either all were stretches of the first history, or some later page was filled by
      inserted rows, and from then on inserted rows stay ahead of the reader. */
  ghost predicate Reading(first: seq<Row>, growth: nat -> seq<Row>, p: nat, found: seq<Row>, clean: nat) {
    && |found| == RUN_PAGE * p
    && clean <= p && RUN_PAGE * clean <= |first| && found[..RUN_PAGE * clean] == first[..RUN_PAGE * clean]
    && (p > 0 ==> clean > 0)
    && (clean < p ==> Inserted(first, growth, p - 1) >= RUN_PAGE * p)
  }

  lemma DistinctFirst(first: seq<Row>, growth: nat -> seq<Row>, boundary: Option<Cursor>)
    requires AppendOnly(first, growth, boundary)
    ensures DistinctIds(first)
  {
    assert History(first, growth, 0) == first;
  }

  lemma StartsReading(first: seq<Row>, growth: nat -> seq<Row>, boundary: Option<Cursor>)
    ensures Reading(first, growth, 0, [], 0) && !Within(first, 0, boundary)
  {
  }

  predicate Seen(rows: seq<Row>, seen: set<nat>) {
    exists k :: 0 <= k < |rows| && rows[k].id in seen
  }

  lemma ShiftedPageIsSeen(first: seq<Row>, growth: nat -> seq<Row>, p: nat, found: seq<Row>, clean: nat)
    requires Reading(first, growth, p, found, clean) && p > 0
    requires 0 < Inserted(first, growth, p) < RUN_PAGE * (p + 1)
    ensures Seen(Page(History(first, growth, p), p), Ids(found))
  {
    InsertedGrows(first, growth, p);
    ShiftedPage(first, growth, p, RUN_PAGE * clean);
    var rows := Page(History(first, growth, p), p);
    var k, i :| 0 <= k < |rows| && 0 <= i < RUN_PAGE * clean && rows[k] == first[i];
    assert found[..RUN_PAGE * clean][i] == first[..RUN_PAGE * clean][i];
    assert rows[k].id in Ids(found);
  }

  /** A page with no row seen before is the next stretch of the first history or wholly new. */
  lemma NextPage(first: seq<Row>, growth: nat -> seq<Row>, p: nat, found: seq<Row>, clean: nat)
    requires Reading(first, growth, p, found, clean)
    requires !Seen(Page(History(first, growth, p), p), Ids(found))
    ensures (Inserted(first, growth, p) == 0 && clean == p) || Inserted(first, growth, p) >= RUN_PAGE * (p + 1)
  {
    if p > 0 {
      InsertedGrows(first, growth, p);
      if 0 < Inserted(first, growth, p) < RUN_PAGE * (p + 1) {
        ShiftedPageIsSeen(first, growth, p, found, clean);
      }
    }
  }

  /** The boundary lies among the first `n` rows of the first history. */
  ghost predicate Within(first: seq<Row>, n: nat, boundary: Option<Cursor>) {
    exists i :: 0 <= i < |first| && i < n && AtBoundary(first[i], boundary)
  }

  /** How much of the rows read is the first history's, after one more page. */
  ghost function Faithful(first: seq<Row>, growth: nat -> seq<Row>, p: nat, clean: nat): nat {
    if clean == p && Inserted(first, growth, p) == 0 then RUN_PAGE * p + |Page(History(first, growth, p), p)|
        else RUN_PAGE * clean
  }

  /** A page before any insertion continues the first history. */
  lemma ReadQuiet(first: seq<Row>, growth: nat -> seq<Row>, p: nat, found: seq<Row>, boundary: Option<Cursor>)
    requires Reading(first, growth, p, found, p) && Inserted(first, growth, p) == 0
    ensures History(first, growth, p) == first
    ensures var rows := Page(first, p); var n := RUN_PAGE * p + |rows|;
            && n <= |first| && found + rows == first[..n]
            && (|rows| < RUN_PAGE ==> n == |first|) && |rows| <= RUN_PAGE
            && (Within(first, n, boundary) <==>
                  Within(first, RUN_PAGE * p, boundary) || exists k :: 0 <= k < |rows| && AtBoundary(rows[k], boundary))
  {
    QuietPage(first, growth, p);
    assert found == first[..RUN_PAGE * p];
    var rows := Page(first, p);
    assert forall k | 0 <= k < |rows| :: rows[k] == first[RUN_PAGE * p + k];
    WithinGrows(first, RUN_PAGE * p, rows, boundary);
  }

  /** One page further: the faithful part grows or stays, and it holds the boundary exactly when the
      page or an earlier one did. */
  lemma ReadOn(first: seq<Row>, growth: nat -> seq<Row>, p: nat, found: seq<Row>, clean: nat, boundary: Option<Cursor>)
    requires AppendOnly(first, growth, boundary) && Reading(first, growth, p, found, clean)
    requires !Seen(Page(History(first, growth, p), p), Ids(found))
    ensures var rows, n := Page(History(first, growth, p), p), Faithful(first, growth, p, clean);
            && n <= |first| && n <= |found + rows| && (found + rows)[..n] == first[..n]
            && (Within(first, n, boundary) <==>
                  Within(first, RUN_PAGE * clean, boundary) || exists k ::
                      0 <= k < |rows| && AtBoundary(rows[k], boundary))
    ensures var h := History(first, growth, p);
            |Page(h, p)| < RUN_PAGE || |h| == |found + Page(h, p)| ==> found + Page(h, p) == first
    ensures |Page(History(first, growth, p), p)| == RUN_PAGE ==>
              Reading(first, growth, p + 1, found + Page(History(first, growth, p), p),
                      if clean == p && Inserted(first, growth, p) == 0 then p + 1 else clean)
  {
    NextPage(first, growth, p, found, clean);
    hide AppendOnly, Seen, Within, Ids, AtBoundary, Page;
    if clean == p && Inserted(first, growth, p) == 0 {
      ReadQuiet(first, growth, p, found, boundary);
    } else {
      NewPage(first, growth, p, boundary);
      var rows := Page(History(first, growth, p), p);
      assert (found + rows)[..RUN_PAGE * clean] == found[..RUN_PAGE * clean];
    }
  }

  lemma WithinGrows(first: seq<Row>, lo: nat, rows: seq<Row>, boundary: Option<Cursor>)
    requires lo + |rows| <= |first| && forall k | 0 <= k < |rows| :: rows[k] == first[lo + k]
    ensures Within(first, lo + |rows|, boundary) <==>
              Within(first, lo, boundary) || exists k :: 0 <= k < |rows| && AtBoundary(rows[k], boundary)
  {
    if Within(first, lo + |rows|, boundary) && !Within(first, lo, boundary) {
      var i :| 0 <= i < |first| && i < lo + |rows| && AtBoundary(first[i], boundary);
      assert AtBoundary(rows[i - lo], boundary);
    }
    if k :| 0 <= k < |rows| && AtBoundary(rows[k], boundary) {
      assert AtBoundary(first[lo + k], boundary);
    }
  }

  lemma FaithfulPrefix(first: seq<Row>, rows: seq<Row>, n: nat, boundary: Option<Cursor>)
    requires n <= |first| && n <= |rows| && rows[..n] == first[..n] && Within(first, n, boundary)
    ensures Prefix(rows, first, boundary)
  {
    var i :| 0 <= i < |first| && i < n && AtBoundary(first[i], boundary);
    assert rows[..i + 1] == rows[..n][..i + 1] && first[..i + 1] == first[..n][..i + 1];
  }

  /** Newest first, none listed twice or before. */
  ghost predicate Orderly(rows: seq<Row>, seen: set<nat>, last: Option<int>) {
    && DistinctIds(rows) && !Seen(rows, seen)
    && (forall i | 0 < i < |rows| :: rows[i].triggeredAt <= rows[i - 1].triggeredAt)
    && (rows != [] && last.Some? ==> rows[0].triggeredAt <= last.value)
  }

  /** Nothing is inserted while the history is read, and it is listed newest first. */
  ghost predicate Calm(first: seq<Row>, growth: nat -> seq<Row>) {
    (forall p: nat | p > 0 :: growth(p) == []) && forall i | 0 < i < |first| ::
        first[i].triggeredAt <= first[i - 1].triggeredAt
  }

  lemma {:induction false} CalmHistory(first: seq<Row>, growth: nat -> seq<Row>, p: nat)
    requires Calm(first, growth)
    ensures History(first, growth, p) == first && Inserted(first, growth, p) == 0
  {
    if p > 0 {
      CalmHistory(first, growth, p - 1);
      assert History(first, growth, p) == [] + first;
    }
  }

  function LastOf(found: seq<Row>): Option<int> {
    if found == [] then None else Some(found[|found| - 1].triggeredAt)
  }

  /** A stretch of a history in listing order is in order itself. */
  lemma StretchIsOrderly(first: seq<Row>, lo: nat, rows: seq<Row>)
    requires DistinctIds(first) && forall i | 0 < i < |first| :: first[i].triggeredAt <= first[i - 1].triggeredAt
    requires lo + |rows| <= |first| && rows == first[lo..lo + |rows|]
    ensures Orderly(rows, Ids(first[..lo]), LastOf(first[..lo]))
  {
    assert forall i | 0 <= i < |rows| :: rows[i] == first[lo + i];
  }

  /** A page of a calm history passes. */
  lemma CalmPage(first: seq<Row>, growth: nat -> seq<Row>, p: nat)
    requires Calm(first, growth) && DistinctIds(first) && RUN_PAGE * p <= |first|
    ensures Orderly(Page(first, p), Ids(first[..RUN_PAGE * p]), LastOf(first[..RUN_PAGE * p]))
  {
    hide Page;
    PageContinues(first, p);
    var lo, rows := RUN_PAGE * p, Page(first, p);
    StretchIsOrderly(first, lo, rows);
  }

  /** The rows of one page in listing order: newest first, and none listed before. */
  method CheckPage(rows: seq<Row>, seen: set<nat>, last: Option<int>, page: nat, boundary: Option<Cursor>,
                   known: set<nat>)
    returns (error: Option<DiscoveryError>, reached: bool)
    ensures error.None? ==> !Seen(rows, seen)
    ensures error.None? ==> (reached <==> exists k :: 0 <= k < |rows| && AtBoundary(rows[k], boundary))
    ensures error.None? && page >= RUN_PAGES ==>
              forall k | 0 <= k < |rows| && rows[k].id !in known :: exists i ::
                  0 <= i <= k && AtBoundary(rows[i], boundary)
    ensures Orderly(rows, seen, last) && page < RUN_PAGES ==> error.None?
  {
    reached := false;
    error := None;
    var previous := last;
    var listed := seen;
    for k := 0 to |rows|
      invariant error.None? && listed == seen + Ids(rows[..k])
      invariant previous == if k == 0 then last else Some(rows[k - 1].triggeredAt)
      invariant forall i | 0 <= i < k :: rows[i].id !in seen
      invariant reached <==> exists i :: 0 <= i < k && AtBoundary(rows[i], boundary)
      invariant page >= RUN_PAGES ==>
                  forall j | 0 <= j < k && rows[j].id !in known :: exists i ::
                      0 <= i <= j && AtBoundary(rows[i], boundary)
    {
      if (previous.Some? && rows[k].triggeredAt > previous.value) || rows[k].id in listed {
        return Some(RunsOrderUnproven), reached;
      }
      previous := Some(rows[k].triggeredAt);
      listed := listed + {rows[k].id};
      IdsAppend(rows, k);
      if AtBoundary(rows[k], boundary) {
        reached := true;
      }
      if page >= RUN_PAGES && !reached && rows[k].id !in known {
        return Some(RunPaginationLimit), reached;
      }
    }
  }

  lemma IdsAppend(rows: seq<Row>, k: nat)
    requires k < |rows|
    ensures Ids(rows[..k + 1]) == Ids(rows[..k]) + {rows[k].id}
  {
    assert rows[..k + 1][k] == rows[k];
    forall id | id in Ids(rows[..k])
      ensures id in Ids(rows[..k + 1])
    {
      var i :| 0 <= i < k && rows[..k][i].id == id;
      assert rows[..k + 1][i].id == id;
    }
  }

  ghost predicate ListsTask(rows: seq<Row>, task: Option<nat>) {
    exists k :: 0 <= k < |rows| && rows[k].taskId == task
  }

  lemma TaskIsListed(before: seq<Row>, rows: seq<Row>, task: Option<nat>)
    requires ListsTask(before, task) || ListsTask(rows, task)
    ensures ListsTask(before + rows, task)
  {
    if k :| 0 <= k < |before| && before[k].taskId == task {
      assert (before + rows)[k] == before[k];
    } else {
      var k :| 0 <= k < |rows| && rows[k].taskId == task;
      assert (before + rows)[|before| + k] == rows[k];
    }
  }

  /** What the page loop knows before page `p`. */
  ghost predicate Progress(first: seq<Row>, growth: nat -> seq<Row>, boundary: Option<Cursor>, task: Option<nat>,
                           p: nat, found: seq<Row>, covered: bool, taskFound: bool, clean: nat) {
    && Reading(first, growth, p, found, clean)
    && (covered <==> Within(first, RUN_PAGE * clean, boundary))
    && (taskFound && task.Some? ==> ListsTask(found, task)) && (task.None? ==> taskFound)
    && (covered ==> !taskFound)
  }

  /** What it knows besides when nothing is inserted. */
  ghost predicate CalmProgress(first: seq<Row>, growth: nat -> seq<Row>, p: nat, found: seq<Row>, clean: nat) {
    Calm(first, growth) ==> clean == p && RUN_PAGE * p <= |first| && found == first[..RUN_PAGE * p]
  }

  /** A discovery that may be used. */
  ghost predicate Sound(r: Discovered, first: seq<Row>, boundary: Option<Cursor>, task: Option<nat>) {
    r.Found? ==> Prefix(r.rows, first, boundary) && (task.Some? && r.rows != first ==> ListsTask(r.rows, task))
  }

  lemma CalmStep(first: seq<Row>, growth: nat -> seq<Row>, p: nat, found: seq<Row>, clean: nat,
                 boundary: Option<Cursor>)
    requires AppendOnly(first, growth, boundary) && CalmProgress(first, growth, p, found, clean)
    ensures Calm(first, growth) ==>
              && History(first, growth, p) == first && Inserted(first, growth, p) == 0 && clean == p
              && Orderly(Page(first, p), Ids(found), LastOf(found))
              && (|Page(first, p)| == RUN_PAGE ==> CalmProgress(first, growth, p + 1, found + Page(first, p), p + 1))
              && (|Page(first, p)| < RUN_PAGE ==> RUN_PAGE * p + |Page(first, p)| == |first|)
  {
    if Calm(first, growth) {
      DistinctFirst(first, growth, boundary);
      CalmHistory(first, growth, p);
      CalmPage(first, growth, p);
      PageContinues(first, p);
    }
  }

  /** One more page: an answer, or the progress before the next. */
  method ReadPage(first: seq<Row>, growth: nat -> seq<Row>, available: nat -> bool, reports: nat -> bool,
                  known: set<nat>, boundary: Option<Cursor>, currentTask: Option<nat>,
                  page: nat, before: seq<Row>, coveredBefore: bool, taskBefore: bool, ghost clean: nat)
    returns (answer: Option<Discovered>, found: seq<Row>, covered: bool, taskFound: bool, ghost cleaner: nat)
    requires AppendOnly(first, growth, boundary)
    requires Progress(first, growth, boundary, currentTask, page, before, coveredBefore, taskBefore, clean)
    requires CalmProgress(first, growth, page, before, clean)
    ensures answer.Some? ==> Sound(answer.value, first, boundary, currentTask)
    ensures answer.None? ==> Progress(first, growth, boundary, currentTask, page + 1, found, covered, taskFound,
                                      cleaner)
    ensures answer.None? ==> CalmProgress(first, growth, page + 1, found, cleaner)
    ensures answer.Some? && answer.value.Refused? && Calm(first, growth) && available(page) && page < RUN_PAGES ==>
              answer.value.error == RunBoundaryMissing && boundary.Some? && !Within(first, |first|, boundary)
  {
    CalmStep(first, growth, page, before, clean, boundary);
    hide AppendOnly, Reading, Within, Seen, Ids, AtBoundary, Page, Calm, Orderly, Prefix, CalmProgress, Inserted,
        History, Faithful;
    found, covered, taskFound, cleaner := before, coveredBefore, taskBefore, clean;
    if !available(page) {
      return Some(Refused(RunsUnavailable)), found, covered, taskFound, cleaner;
    }
    var history := History(first, growth, page);
    var rows := Page(history, page);
    var error, reached := CheckPage(rows, Ids(found), LastOf(found), page, boundary, known);
    if error.Some? {
      return Some(Refused(error.value)), found, covered, taskFound, cleaner;
    }
    PageRead(first, growth, page, before, clean, boundary, coveredBefore, reached);
    found := before + rows;
    covered := covered || reached;
    taskFound := taskFound || exists k :: 0 <= k < |rows| && rows[k].taskId == currentTask;
    if currentTask.Some? && taskFound {
      TaskIsListed(before, rows, currentTask);
    }
    if covered && taskFound {
      return Some(Found(found)), found, covered, taskFound, cleaner;
    }
    if |rows| < RUN_PAGE || (reports(page) && |history| == |found|) {
      return Some(if boundary.Some? && !covered then Refused(RunBoundaryMissing) else Found(found)), found, covered,
          taskFound, cleaner;
    }
    cleaner := CleanAfter(first, growth, page, clean);
    answer := None;
  }

  ghost function CleanAfter(first: seq<Row>, growth: nat -> seq<Row>, p: nat, clean: nat): nat {
    if clean == p && Inserted(first, growth, p) == 0 then p + 1 else clean
  }

  /** What one page that passed adds to the progress. */
  lemma PageRead(first: seq<Row>, growth: nat -> seq<Row>, p: nat, before: seq<Row>, clean: nat,
                 boundary: Option<Cursor>, covered: bool, reached: bool)
    requires AppendOnly(first, growth, boundary) && Reading(first, growth, p, before, clean)
    requires !Seen(Page(History(first, growth, p), p), Ids(before))
    requires covered <==> Within(first, RUN_PAGE * clean, boundary)
    requires var rows := Page(History(first, growth, p), p);
             reached <==> exists k :: 0 <= k < |rows| && AtBoundary(rows[k], boundary)
    ensures var history := History(first, growth, p); var rows := Page(history, p); var found := before + rows;
            && (covered || reached ==> Prefix(found, first, boundary))
            && (|rows| < RUN_PAGE || |history| == |found| ==>
                  && found == first && (boundary.None? ==> Prefix(found, first, boundary))
                  && (!(covered || reached) ==> !Within(first, |first|, boundary)))
            && (|rows| == RUN_PAGE ==>
                  && Reading(first, growth, p + 1, found, CleanAfter(first, growth, p, clean))
                  && (covered || reached <==> Within(first, RUN_PAGE * CleanAfter(first, growth, p, clean), boundary)))
  {
    ReadOn(first, growth, p, before, clean, boundary);
    hide AppendOnly, Reading, Seen, Ids, AtBoundary, Page, History;
    var n, found := Faithful(first, growth, p, clean), before + Page(History(first, growth, p), p);
    if covered || reached {
      FaithfulPrefix(first, found, n, boundary);
    }
    if boundary.None? {
      WholeIsPrefix(first, boundary);
    }
    WholePageIsFaithful(first, growth, p, before, clean, boundary);
  }

  /** At the end of the history all that was read is faithful. */
  lemma WholePageIsFaithful(first: seq<Row>, growth: nat -> seq<Row>, p: nat, before: seq<Row>, clean: nat,
                            boundary: Option<Cursor>)
    requires AppendOnly(first, growth, boundary) && Reading(first, growth, p, before, clean)
    requires !Seen(Page(History(first, growth, p), p), Ids(before))
    ensures var history := History(first, growth, p);
            |Page(history, p)| < RUN_PAGE || |history| == |before| + |Page(history, p)| ==>
                Faithful(first, growth, p, clean) == |first|
  {
    ReadOn(first, growth, p, before, clean, boundary);
    NextPage(first, growth, p, before, clean);
    if !(clean == p && Inserted(first, growth, p) == 0) {
      NewPage(first, growth, p, boundary);
    }
  }

  lemma WholeIsPrefix(first: seq<Row>, boundary: Option<Cursor>)
    requires boundary.None?
    ensures Prefix(first, first, boundary)
  {
  }

  /** `runs`: whatever is inserted between the page reads, either the read is refused or everything down
      to the boundary is the history as it stood at the first read.  `available` and `reports` are the
      native replies: whether a page can be read and whether it states the total.  A calm history within
      the normal window is refused only if the boundary is no longer in it. */
  method Runs(first: seq<Row>, growth: nat -> seq<Row>, available: nat -> bool, reports: nat -> bool,
              known: set<nat>, boundary: Option<Cursor>, currentTask: Option<nat>) returns (r: Discovered)
    requires AppendOnly(first, growth, boundary)
    ensures r.Found? ==> Prefix(r.rows, first, boundary)
    ensures r.Found? && currentTask.Some? && r.rows != first ==> ListsTask(r.rows, currentTask)
    ensures r.Refused? && Calm(first, growth) && (forall p :: available(p)) && |first| < RUN_PAGE * RUN_PAGES ==>
              r.error == RunBoundaryMissing && boundary.Some? && !Within(first, |first|, boundary)
  {
    StartsReading(first, growth, boundary);
    hide AppendOnly, Reading, Within, Prefix, Calm;
    var found: seq<Row>, covered, taskFound := [], false, currentTask.None?;
    var pages := if known == {} then RUN_PAGES else if (JOURNAL_LIMIT + RUN_PAGE - 1) / RUN_PAGE > RUN_PAGES
        then (JOURNAL_LIMIT + RUN_PAGE - 1) / RUN_PAGE else RUN_PAGES;
    ghost var clean := 0;
    for page := 0 to pages
      invariant Progress(first, growth, boundary, currentTask, page, found, covered, taskFound, clean)
      invariant CalmProgress(first, growth, page, found, clean)
    {
      var answer: Option<Discovered>;
      answer, found, covered, taskFound, clean :=
        ReadPage(first, growth, available, reports, known, boundary, currentTask, page, found, covered, taskFound,
                 clean);
      if answer.Some? {
        return answer.value;
      }
    }
    return Refused(RunPaginationLimit);
  }
}
