/** Concurrent publishers of immutable assets and one index that is swapped last.

    A digest stands for the bytes it was made from.  Two spellings of one JSON value differ in `layout`. */
module ContentPublication {
  import opened HealthEvents

  datatype Bytes = IndexFile(index: Index, layout: nat) | DocumentFile(document: Document, layout: nat)
                 | Blob(data: nat)

  datatype Descriptor = Descriptor(revision: nat, path: string, digest: Bytes)

  datatype Index = Index(revision: nat, sponsors: Descriptor, announcements: Descriptor)

  datatype Avatar = Avatar(path: string, digest: Bytes)

  datatype Sponsor = Sponsor(id: string, avatar: Option<Avatar>, text: string)

  datatype Announcement = Announcement(id: string, notificationRevision: nat, text: string)

  datatype Document = Sponsors(revision: nat, sponsors: seq<Sponsor>)
                    | Announcements(revision: nat, announcements: seq<Announcement>, display: string)

  datatype Kind = SponsorKind | AnnouncementKind

  /** What `read_package` hands to the publisher. */
  datatype Package = Package(index: Bytes, files: map<string, Bytes>)

  function DescriptorOf(i: Index, kind: Kind): Descriptor {
    match kind case SponsorKind => i.sponsors case AnnouncementKind => i.announcements
  }

  // ---- validation ------------------------------------------------------------------------------

  predicate Revision(n: nat) {
    1 <= n <= 9007199254740991
  }

  predicate DistinctSponsors(s: seq<Sponsor>) {
    forall i, j | 0 <= i < j < |s| :: s[i].id != s[j].id
  }

  predicate DistinctAnnouncements(s: seq<Announcement>) {
    forall i, j | 0 <= i < j < |s| :: s[i].id != s[j].id
  }

  /** `validate_document`, as far as a publisher depends on it. */
  predicate DocumentOk(d: Document, kind: Kind) {
    && Revision(d.revision)
    && (match kind
        case SponsorKind => d.Sponsors? && DistinctSponsors(d.sponsors)
        case AnnouncementKind => d.Announcements? && DistinctAnnouncements(d.announcements))
  }

  predicate KeptIn(n: Announcement, following: seq<Announcement>) {
    exists i :: 0 <= i < |following| && following[i].id == n.id
        && following[i].notificationRevision >= n.notificationRevision
  }

  /** `validate_update` */
  predicate UpdateOk(previous: Document, following: Document) {
    && previous.revision <= following.revision
    && (previous.revision == following.revision ==> previous == following)
    && (previous.Announcements? ==> following.Announcements?)
    && (previous.Announcements? ==> forall i | 0 <= i < |previous.announcements| ::
        KeptIn(previous.announcements[i], following.announcements))
  }

  /** The folder of a path, with its final slash. */
  function Folder(path: string): string {
    if path == "" || path[|path| - 1] == '/' then path else Folder(path[..|path| - 1])
  }

  predicate Immutable(path: string) {
    "releases/" <= path
  }

  /** A file of this name holds the descriptor's document. */
  predicate Holds(files: map<string, Bytes>, d: Descriptor, kind: Kind) {
    && d.path in files && files[d.path] == d.digest
    && d.digest.DocumentFile? && DocumentOk(d.digest.document, kind) && d.digest.document.revision == d.revision
    && Immutable(d.path)
  }

  predicate HoldsAvatar(files: map<string, Bytes>, d: Descriptor, s: Sponsor) {
    s.avatar.Some? ==>
      var path := Folder(d.path) + s.avatar.value.path; path in files && files[path] == s.avatar.value.digest
  }

  /** The files hold everything the index names. */
  predicate Backed(files: map<string, Bytes>, i: Index) {
    && Revision(i.revision)
    && Holds(files, i.sponsors, SponsorKind) && Holds(files, i.announcements, AnnouncementKind)
    && (forall k | 0 <= k < |i.sponsors.digest.document.sponsors| ::
        HoldsAvatar(files, i.sponsors, i.sponsors.digest.document.sponsors[k]))
  }

  predicate PackageOk(p: Package) {
    p.index.IndexFile? && Backed(p.files, p.index.index)
  }

  function DocumentOf(i: Index, kind: Kind): Option<Document> {
    var bytes := DescriptorOf(i, kind).digest;
    if bytes.DocumentFile? then Some(bytes.document) else None
  }

  predicate UpdatesKind(i: Index, j: Index, kind: Kind) {
    && DocumentOf(i, kind).Some? && DocumentOf(j, kind).Some?
    && UpdateOk(DocumentOf(i, kind).value, DocumentOf(j, kind).value)
  }

  predicate UpdatesRevision(i: Index, j: Index) {
    i.revision <= j.revision && (i.revision == j.revision ==> i == j)
  }

  /** One index may follow another. */
  predicate Follows(i: Index, j: Index) {
    UpdatesRevision(i, j) && UpdatesKind(i, j, SponsorKind) && UpdatesKind(i, j, AnnouncementKind)
  }

  lemma UpdateTrans(a: Document, b: Document, c: Document)
    requires UpdateOk(a, b) && UpdateOk(b, c)
    ensures UpdateOk(a, c)
  {
    if a.Announcements? {
      forall i | 0 <= i < |a.announcements|
        ensures KeptIn(a.announcements[i], c.announcements)
      {
        assert KeptIn(a.announcements[i], b.announcements);
        var j :| 0 <= j < |b.announcements| && b.announcements[j].id == a.announcements[i].id
                 && b.announcements[j].notificationRevision >= a.announcements[i].notificationRevision;
        assert KeptIn(b.announcements[j], c.announcements);
      }
    }
  }

  lemma FollowsTrans(i: Index, j: Index, k: Index)
    requires Follows(i, j) && Follows(j, k)
    ensures Follows(i, k)
  {
    UpdateTrans(DocumentOf(i, SponsorKind).value, DocumentOf(j, SponsorKind).value, DocumentOf(k, SponsorKind).value);
    UpdateTrans(DocumentOf(i, AnnouncementKind).value, DocumentOf(j, AnnouncementKind).value,
                DocumentOf(k, AnnouncementKind).value);
  }

  // ---- publishers and the server ---------------------------------------------------------------

  /** A publication under way: the package, the index seen at its start, the kinds compared with it, and
      the assets known to be in place. */
  datatype Publisher = Publisher(package: Package, seen: Option<Bytes>, checked: set<Kind>, placed: set<string>)

  /** An asset request whose publisher gave up on it while it was still on its way. */
  datatype Request = Request(who: nat, path: string, payload: Bytes)

  datatype Sys = Sys(assets: map<string, Bytes>, index: Option<Bytes>, publishers: map<nat, Publisher>,
                     late: set<Request>)

  datatype Action =
    | Begin(who: nat, package: Package)      // read the index and compare revisions
    | Check(who: nat, kind: Kind)            // read a live document and compare
    | Place(who: nat, path: string)          // the asset operation
    | Swap(who: nat)                         // the index operation, which ends a publication
    | Stop(who: nat)                         // a refusal, a failure or a crash
    | GiveUp(who: nat, path: string)         // no answer to an asset operation, which may still happen
    | Arrive(who: nat, request: Request)     // and then, perhaps much later, does

  const INITIAL := Sys(map[], None, map[], {})

  predicate Compared(p: Publisher) {
    p.seen.Some? ==> SponsorKind in p.checked && AnnouncementKind in p.checked
  }

  predicate BeginEnabled(s: Sys, package: Package) {
    && PackageOk(package)
    && (s.index.Some? ==> s.index.value.IndexFile? && UpdatesRevision(s.index.value.index, package.index.index))
  }

  /** The published document is the one its index names, and the new one may follow it. */
  predicate CheckEnabled(s: Sys, p: Publisher, kind: Kind) {
    && p.seen.Some? && p.seen.value.IndexFile? && p.package.index.IndexFile?
    && (var d := DescriptorOf(p.seen.value.index, kind);
        d.path in s.assets && s.assets[d.path] == d.digest)
    && UpdatesKind(p.seen.value.index, p.package.index.index, kind)
  }

  predicate PlaceEnabled(s: Sys, p: Publisher, path: string) {
    Compared(p) && path in p.package.files && (path in s.assets ==> s.assets[path] == p.package.files[path])
  }

  predicate Enabled(s: Sys, a: Action) {
    match a
    case Begin(who, package) => who !in s.publishers && BeginEnabled(s, package)
    case Check(who, kind) => who in s.publishers && CheckEnabled(s, s.publishers[who], kind)
    case Place(who, path) => who in s.publishers && PlaceEnabled(s, s.publishers[who], path)
    case Swap(who) =>
      && who in s.publishers && Compared(s.publishers[who])
      && s.publishers[who].package.files.Keys <= s.publishers[who].placed && s.index == s.publishers[who].seen
    case Stop(_) => true
    case GiveUp(who, path) =>
      who in s.publishers && Compared(s.publishers[who]) && path in s.publishers[who].package.files
    case Arrive(who, request) => request in s.late && request.who == who
  }

  function Effect(s: Sys, a: Action): Sys
    requires Enabled(s, a)
  {
    match a
    case Begin(who, package) => s.(publishers := s.publishers[who := Publisher(package, s.index, {}, {})])
    case Check(who, kind) =>
      var p := s.publishers[who];
      s.(publishers := s.publishers[who := p.(checked := p.checked + {kind})])
    case Place(who, path) =>
      var p := s.publishers[who];
      s.(assets := s.assets[path := p.package.files[path]],
         publishers := s.publishers[who := p.(placed := p.placed + {path})])
    case Swap(who) => s.(index := Some(s.publishers[who].package.index), publishers := s.publishers - {who})
    case Stop(who) => s.(publishers := s.publishers - {who})
    case GiveUp(who, path) =>
      s.(publishers := s.publishers - {who},
         late := s.late + {Request(who, path, s.publishers[who].package.files[path])})
    case Arrive(_, request) =>
      s.(assets := if Immutable(request.path) && request.path !in s.assets
                   then s.assets[request.path := request.payload] else s.assets,
         late := s.late - {request})
  }

  function Run(s: Sys, actions: seq<Action>): Option<Sys> {
    if actions == [] then Some(s)
    else match Run(s, actions[..|actions| - 1])
      case None => None
      case Some(t) => var a := actions[|actions| - 1]; if Enabled(t, a) then Some(Effect(t, a)) else None
  }

  // ---- the invariant ---------------------------------------------------------------------------

  /** What a publisher has established so far, whatever the others did meanwhile. */
  ghost predicate PublisherOk(s: Sys, p: Publisher) {
    && PackageOk(p.package)
    && (p.seen.Some? ==> p.seen.value.IndexFile? && UpdatesRevision(p.seen.value.index, p.package.index.index))
    && (forall kind | kind in p.checked :: p.seen.Some? && UpdatesKind(p.seen.value.index, p.package.index.index, kind))
    && (forall path | path in p.placed ::
          path in p.package.files && path in s.assets && s.assets[path] == p.package.files[path])
  }

  ghost predicate Inv(s: Sys) {
    && (s.index.Some? ==> s.index.value.IndexFile? && Backed(s.assets, s.index.value.index))
    && (forall who | who in s.publishers :: PublisherOk(s, s.publishers[who]))
  }

  /** Assets are only ever added. */
  predicate Extends(a: map<string, Bytes>, b: map<string, Bytes>) {
    forall path | path in a :: path in b && b[path] == a[path]
  }

  lemma ExtendsTrans(a: map<string, Bytes>, b: map<string, Bytes>, c: map<string, Bytes>)
    requires Extends(a, b) && Extends(b, c)
    ensures Extends(a, c)
  {
  }

  lemma BackedLater(a: map<string, Bytes>, b: map<string, Bytes>, i: Index)
    requires Backed(a, i) && Extends(a, b)
    ensures Backed(b, i)
  {
    forall k | 0 <= k < |i.sponsors.digest.document.sponsors|
      ensures HoldsAvatar(b, i.sponsors, i.sponsors.digest.document.sponsors[k])
    {
      assert HoldsAvatar(a, i.sponsors, i.sponsors.digest.document.sponsors[k]);
    }
  }

  lemma StepExtends(s: Sys, a: Action)
    requires Enabled(s, a)
    ensures Extends(s.assets, Effect(s, a).assets)
  {
  }

  lemma PublishersStay(s: Sys, a: Action)
    requires Inv(s) && Enabled(s, a)
    ensures forall who | who in Effect(s, a).publishers :: PublisherOk(Effect(s, a), Effect(s, a).publishers[who])
  {
    hide PackageOk, UpdatesRevision, UpdatesKind;
    StepExtends(s, a);
    var t := Effect(s, a);
    forall who | who in t.publishers
      ensures PublisherOk(t, t.publishers[who])
    {
      if who in s.publishers {
        assert PublisherOk(s, s.publishers[who]);
      }
    }
  }

  /** What a publisher swaps in is backed by what it placed, and follows what it replaces. */
  lemma SwapIsSound(s: Sys, who: nat)
    requires Inv(s) && Enabled(s, Swap(who))
    ensures s.publishers[who].package.index.IndexFile? && Backed(s.assets, s.publishers[who].package.index.index)
    ensures s.index.Some? ==> Follows(s.index.value.index, s.publishers[who].package.index.index)
  {
    var p := s.publishers[who];
    assert PublisherOk(s, p);
    BackedLater(p.package.files, s.assets, p.package.index.index);
  }

  lemma StepKeepsInv(s: Sys, a: Action)
    requires Inv(s) && Enabled(s, a)
    ensures Inv(Effect(s, a))
  {
    hide Backed, PublisherOk;
    PublishersStay(s, a);
    StepExtends(s, a);
    if s.index.Some? {
      BackedLater(s.assets, Effect(s, a).assets, s.index.value.index);
    }
    if a.Swap? {
      SwapIsSound(s, a.who);
    }
  }

  /** A live index may stay or be followed. */
  ghost predicate Succeeds(i: Option<Bytes>, j: Option<Bytes>) {
    i.Some? ==> j.Some? && i.value.IndexFile? && j.value.IndexFile? && (i == j || Follows(i.value.index, j.value.index))
  }

  lemma SucceedsTrans(i: Option<Bytes>, j: Option<Bytes>, k: Option<Bytes>)
    requires Succeeds(i, j) && Succeeds(j, k)
    ensures Succeeds(i, k)
  {
    hide Follows;
    if i.Some? && i != j && j != k {
      FollowsTrans(i.value.index, j.value.index, k.value.index);
    }
  }

  lemma StepSucceeds(s: Sys, a: Action)
    requires Inv(s) && Enabled(s, a)
    ensures Succeeds(s.index, Effect(s, a).index)
  {
    hide Backed, Follows;
    if a.Swap? {
      SwapIsSound(s, a.who);
      assert PublisherOk(s, s.publishers[a.who]);
    }
  }

  // ---- counting swaps --------------------------------------------------------------------------

  /** How often this publisher's index operation took effect. */
  function SwapsBy(actions: seq<Action>, who: nat): nat {
    if actions == [] then 0
    else SwapsBy(actions[..|actions| - 1], who) + (if actions[|actions| - 1] == Swap(who) then 1 else 0)
  }

  function BeginsBy(actions: seq<Action>, who: nat): nat {
    if actions == [] then 0
    else
      var a := actions[|actions| - 1];
      BeginsBy(actions[..|actions| - 1], who) + (if a.Begin? && a.who == who then 1 else 0)
  }

  /** Over any run a publication swaps at most once, even if its request takes effect late. */
  lemma {:induction false} SwapsAtMostOnce(actions: seq<Action>, who: nat)
    requires Run(INITIAL, actions).Some?
    ensures var going := who in Run(INITIAL, actions).value.publishers;
            SwapsBy(actions, who) + (if going then 1 else 0) <= BeginsBy(actions, who)
  {
    if actions != [] {
      SwapsAtMostOnce(actions[..|actions| - 1], who);
    }
  }

  // ---- the main results ------------------------------------------------------------------------

  /** Under any interleaving of publishers and crashes, with assets that land long after their publisher has
      given up, the live index is replaced only by ones that may follow it, and no asset ever changes or
      disappears. */
  lemma {:induction false} IndexOnlyMovesOn(s: Sys, actions: seq<Action>)
    requires Inv(s) && Run(s, actions).Some?
    ensures var t := Run(s, actions).value; Inv(t) && Succeeds(s.index, t.index) && Extends(s.assets, t.assets)
  {
    if actions != [] {
      hide Inv, Succeeds, Extends;
      var before := actions[..|actions| - 1];
      var a := actions[|actions| - 1];
      IndexOnlyMovesOn(s, before);
      var t := Run(s, before).value;
      StepKeepsInv(t, a);
      StepSucceeds(t, a);
      StepExtends(t, a);
      SucceedsTrans(s.index, t.index, Effect(t, a).index);
      ExtendsTrans(s.assets, t.assets, Effect(t, a).assets);
    }
  }

  ghost predicate Reachable(s: Sys) {
    exists actions :: Run(INITIAL, actions) == Some(s)
  }

  lemma ReachableInv(s: Sys)
    requires Reachable(s)
    ensures Inv(s)
  {
    var actions :| Run(INITIAL, actions) == Some(s);
    IndexOnlyMovesOn(INITIAL, actions);
  }

  /** Every descriptor of the live index names a present asset with the stated digest and revision, and
      so does every avatar its sponsors name. */
  lemma LiveIndexIsBacked(s: Sys)
    requires Reachable(s) && s.index.Some?
    ensures s.index.value.IndexFile? && Backed(s.assets, s.index.value.index)
  {
    hide Reachable, Backed;
    ReachableInv(s);
  }

  /** Between any two moments revisions do not fall, a revision names one content, no announcement
      disappears and no notification revision falls. */
  lemma NothingPublishedIsTakenBack(s: Sys, actions: seq<Action>)
    requires Reachable(s) && Run(s, actions).Some? && s.index.Some?
    ensures var t := Run(s, actions).value;
            t.index.Some? && s.index.value.IndexFile? && t.index.value.IndexFile? &&
            var i, j := s.index.value.index, t.index.value.index;
            && i.revision <= j.revision && (i.revision == j.revision ==> i == j)
            && i.sponsors.revision <= j.sponsors.revision && i.announcements.revision <= j.announcements.revision
            && DocumentOf(i, AnnouncementKind).Some? && DocumentOf(j, AnnouncementKind).Some?
            && forall n | n in Entries(i) :: exists m ::
               m in Entries(j) && m.id == n.id && m.notificationRevision >= n.notificationRevision
  {
    ReachableInv(s);
    IndexOnlyMovesOn(s, actions);
    var t := Run(s, actions).value;
    var i, j := s.index.value.index, t.index.value.index;
    forall n | n in Entries(i)
      ensures exists m :: m in Entries(j) && m.id == n.id && m.notificationRevision >= n.notificationRevision
    {
      if i != j {
        assert KeptIn(n, Entries(j));
      }
    }
  }

  function Entries(i: Index): seq<Announcement> {
    var d := DocumentOf(i, AnnouncementKind);
    if d.Some? && d.value.Announcements? then d.value.announcements else []
  }

  /** A client that fetched an index finds everything it names for as long as it likes. */
  lemma FetchedIndexStaysBacked(s: Sys, actions: seq<Action>)
    requires Reachable(s) && Run(s, actions).Some? && s.index.Some?
    ensures s.index.value.IndexFile? && Backed(Run(s, actions).value.assets, s.index.value.index)
  {
    hide Backed;
    ReachableInv(s);
    IndexOnlyMovesOn(s, actions);
    BackedLater(s.assets, Run(s, actions).value.assets, s.index.value.index);
  }
}
