/** The content server's operations, and one publication while other publishers go on. */
module ContentServer {
  import opened HealthEvents
  import opened ContentPublication

  /** What becomes of one request: it is answered, or its answer is lost before or after it took effect. */
  datatype Fate = Answered | LostBefore | LostAfter

  datatype Reply = Done | Refused | Lost

  /** What the others do before one request, and that request's fate. */
  datatype Turn = Turn(others: seq<Action>, fate: Fate)

  type Schedule = nat -> Turn

  /** How a publication ends: confirmed; given up with nothing of it left to happen; or without knowing. */
  datatype Outcome = Published | Stopped | Unconfirmed

  /** The others do nothing and every request is answered. */
  ghost predicate Quiet(turns: Schedule) {
    forall i: nat :: turns(i) == Turn([], Answered)
  }

  ghost predicate AllAnswered(turns: Schedule) {
    forall i: nat :: turns(i).fate == Answered
  }

  /** Nothing stands in the way of the package's files. */
  predicate NoConflict(assets: map<string, Bytes>, package: Package) {
    forall path | path in package.files :: Immutable(path) && (path in assets ==> assets[path] == package.files[path])
  }

  /** The package may follow what is live. */
  predicate Publishable(s: Sys, package: Package) {
    && NoConflict(s.assets, package)
    && (s.index.Some? ==>
          && s.index.value.IndexFile? && package.index.IndexFile?
          && Follows(s.index.value.index, package.index.index))
  }

  class Server {
    var assets: map<string, Bytes>
    var index: Option<Bytes>
    var publishers: map<nat, Publisher>
    var late: set<Request>
    ghost var past: seq<Action>

    ghost function Now(): Sys
      reads this
    {
      Sys(assets, index, publishers, late)
    }

    ghost predicate Valid()
      reads this
    {
      Run(INITIAL, past) == Some(Now())
    }

    constructor ()
      ensures Valid() && Now() == INITIAL
    {
      assets, index, publishers, late, past := map[], None, map[], {}, [];
    }

    // ---- the remote operations -----------------------------------------------------------------

    method Read(path: string, fate: Fate) returns (reply: Reply, payload: Option<Bytes>)
      ensures reply == if fate.Answered? then Done else Lost
      ensures reply.Done? ==> payload == if path in assets then Some(assets[path]) else None
    {
      if !fate.Answered? {
        return Lost, None;
      }
      return Done, if path in assets then Some(assets[path]) else None;
    }

    /** An asset is created once; the same bytes may be offered again. */
    method Asset(path: string, payload: Bytes, digest: Bytes, fate: Fate) returns (reply: Reply)
      modifies this`assets
      ensures assets == if fate != LostBefore && Accepts(old(assets), path, payload, digest)
                        then old(assets)[path := payload] else old(assets)
      ensures reply == if !fate.Answered? then Lost else if Accepts(old(assets), path, payload, digest) then Done
              else Refused
    {
      if fate.LostBefore? {
        return Lost;
      }
      reply := Refused;
      if Immutable(path) && payload == digest {
        if path in assets {
          reply := if assets[path] == payload then Done else Refused;
          assert assets == assets[path := assets[path]];
        } else {
          assets := assets[path := payload];
          reply := Done;
        }
      }
      reply := if fate.Answered? then reply else Lost;
    }

    /** The index is replaced only if it is still the one expected. */
    method ReplaceIndex(expected: Option<Bytes>, payload: Bytes, fate: Fate) returns (reply: Reply)
      modifies this`index
      ensures index == if fate != LostBefore && old(index) == expected then Some(payload) else old(index)
      ensures reply == if !fate.Answered? then Lost else if old(index) == expected then Done else Refused
    {
      if fate.LostBefore? {
        return Lost;
      }
      reply := Refused;
      if index == expected {
        index := Some(payload);
        reply := Done;
      }
      reply := if fate.Answered? then reply else Lost;
    }

    // ---- the other publishers ------------------------------------------------------------------

    /** Others take what steps they can, in any order and number, and requests given up arrive; `me` is
        someone else. */
    method Let(others: seq<Action>, me: nat)
      requires Valid()
      modifies this
      ensures Valid() && old(past) <= past
      ensures me in publishers <==> me in old(publishers)
      ensures me in publishers ==> publishers[me] == old(publishers)[me]
      ensures SwapsBy(past[|old(past)|..], me) == 0
      ensures others == [] ==> Now() == old(Now())
    {
      hide Enabled, Effect, Run;
      for i := 0 to |others|
        invariant Valid() && old(past) <= past && SwapsBy(past[|old(past)|..], me) == 0
        invariant me in publishers <==> me in old(publishers)
        invariant me in publishers ==> publishers[me] == old(publishers)[me]
        invariant others == [] ==> Now() == old(Now())
      {
        ghost var before := past;
        LetOne(others[i], me);
        SwapsLater(old(past), before, past, me);
      }
    }

    /** One step of another publisher, or of a request given up, if it is possible now. */
    method LetOne(a: Action, me: nat)
      requires Valid()
      modifies this
      ensures Valid() && (past == old(past) || (past == old(past) + [a] && a != Swap(me)))
      ensures me in publishers <==> me in old(publishers)
      ensures me in publishers ==> publishers[me] == old(publishers)[me]
    {
      hide Enabled, Effect, Run;
      var s := Sys(assets, index, publishers, late);
      if (a.who != me || a.Arrive?) && Enabled(s, a) {
        var t := Effect(s, a);
        OnlyItsOwn(s, a, me);
        Traces(past, s, a);
        assets, index, publishers, late := t.assets, t.index, t.publishers, t.late;
        past := past + [a];
      }
    }

    // ---- publish -------------------------------------------------------------------------------

    /** A step of this publication, already carried out on the server. */
    ghost predicate Ready(me: nat, p: Publisher)
      reads this
    {
      Valid() && me in publishers && publishers[me] == p
    }

    /** Compare one published document with its successor. */
    method CompareKind(me: nat, previous: Index, package: Package, kind: ContentPublication.Kind, fate: Fate)
      returns (ok: bool)
      requires Valid() && me in publishers && publishers[me].package == package && package.index.IndexFile?
      requires publishers[me].seen.Some? && publishers[me].seen.value.IndexFile?
      requires publishers[me].seen.value.index == previous
      modifies this`publishers, this`past
      ensures ok ==> Ready(me, old(publishers[me]).(checked := old(publishers[me]).checked + {kind}))
      ensures Valid() && past == old(past) + if ok then [Check(me, kind)] else []
      ensures !ok ==> publishers == old(publishers)
      ensures ok <==> fate.Answered? && CheckEnabled(old(Now()), old(publishers[me]), kind)
    {
      assert past + [] == past;
      var d := DescriptorOf(previous, kind);
      var reply, payload := Read(d.path, fate);
      if reply != Done || payload != Some(d.digest) || !d.digest.DocumentFile? {
        return false;
      }
      var following := DocumentOf(package.index.index, kind);
      if following.None? || !UpdateOk(d.digest.document, following.value) {
        return false;
      }
      Traces(past, Now(), Check(me, kind));
      publishers := publishers[me := publishers[me].(checked := publishers[me].checked + {kind})];
      past := past + [Check(me, kind)];
      return true;
    }

    /** Ask for one file of the package to be put in place. */
    method PlaceFile(me: nat, package: Package, path: string, fate: Fate) returns (reply: Reply)
      requires Valid() && me in publishers && publishers[me].package == package && Compared(publishers[me])
      requires path in package.files
      modifies this`assets, this`publishers, this`past
      ensures Valid() && me in publishers && publishers[me] == old(publishers[me]).(placed := publishers[me].placed)
      ensures old(publishers[me]).placed <= publishers[me].placed && (reply.Done? ==> path in publishers[me].placed)
      ensures past == old(past) || past == old(past) + [Place(me, path)]
      ensures var fits := Fits(old(assets), package, path);
              && reply == (if !fate.Answered? then Lost else if fits then Done else Refused)
              && (fate.Answered? ==> assets == if fits then old(assets)[path := package.files[path]] else old(assets))
    {
      ghost var before := Now();
      var fits := Fits(assets, package, path);
      reply := Asset(path, package.files[path], package.files[path], fate);
      if fate != LostBefore && fits {
        Traces(past, before, Place(me, path));
        publishers := publishers[me := publishers[me].(placed := publishers[me].placed + {path})];
        past := past + [Place(me, path)];
      }
    }

    /** The publication ends without an answer to one asset request, which may still arrive. */
    method Abandon(me: nat, path: string)
      requires Valid() && me in publishers && Compared(publishers[me]) && path in publishers[me].package.files
      modifies this`publishers, this`late, this`past
      ensures Valid() && past == old(past) + [GiveUp(me, path)] && publishers == old(publishers) - {me}
      ensures late == old(late) + {Request(me, path, old(publishers[me]).package.files[path])}
    {
      Traces(past, Now(), GiveUp(me, path));
      late := late + {Request(me, path, publishers[me].package.files[path])};
      publishers := publishers - {me};
      past := past + [GiveUp(me, path)];
    }

    /** Others go on, then one file is asked for.  Without an answer, the publication is over. */
    method PlaceNext(me: nat, package: Package, path: string, turn: Turn) returns (reply: Reply)
      requires Valid() && me in publishers && publishers[me].package == package && Compared(publishers[me])
      requires path in package.files
      modifies this
      ensures Valid() && old(past) <= past && SwapsBy(past[|old(past)|..], me) == 0
      ensures reply.Lost? <==> me !in publishers
      ensures me in publishers ==>
                && publishers[me] == old(publishers[me]).(placed := publishers[me].placed)
                && old(publishers[me]).placed <= publishers[me].placed
      ensures reply.Done? ==> path in publishers[me].placed
      ensures turn.fate.Answered? ==> !reply.Lost?
      ensures turn == Turn([], Answered) && NoConflict(old(assets), package) ==>
                reply.Done? && index == old(index) && NoConflict(assets, package)
    {
      hide Run;
      ghost var start := past;
      Let(turn.others, me);
      ghost var middle := past;
      reply := PlaceFile(me, package, path, turn.fate);
      SwapsLater(start, start, middle, me);
      SwapsLater(start, middle, past, me);
      if reply.Lost? {
        ghost var asked := past;
        Abandon(me, path);
        SwapsLater(start, asked, past, me);
      }
    }

    /** Put every file of the package in place, while others go on. */
    method PlaceAll(me: nat, package: Package, turns: Schedule) returns (reply: Reply)
      requires Valid() && me in publishers && publishers[me].package == package && Compared(publishers[me])
      modifies this
      ensures Valid() && old(past) <= past && SwapsBy(past[|old(past)|..], me) == 0
      ensures reply.Lost? <==> me !in publishers
      ensures me in publishers ==> publishers[me] == old(publishers[me]).(placed := publishers[me].placed)
      ensures reply.Done? ==> package.files.Keys <= publishers[me].placed
      ensures AllAnswered(turns) ==> !reply.Lost?
      ensures Quiet(turns) && NoConflict(old(assets), package) ==> reply.Done? && index == old(index)
    {
      hide Run, NoConflict;
      ghost var calm := Quiet(turns) && NoConflict(assets, package);
      var todo := package.files.Keys;
      var turn := 0;
      while todo != {}
        invariant Valid() && old(past) <= past && me in publishers && SwapsBy(past[|old(past)|..], me) == 0
        invariant publishers[me] == old(publishers[me]).(placed := publishers[me].placed)
        invariant todo <= package.files.Keys && package.files.Keys - todo <= publishers[me].placed
        invariant calm ==> NoConflict(assets, package) && index == old(index)
        decreases todo
      {
        ghost var start := past;
        var path :| path in todo;
        todo := todo - {path};
        reply := PlaceNext(me, package, path, turns(turn));
        turn := turn + 1;
        SwapsLater(old(past), start, past, me);
        if reply != Done {
          return;
        }
      }
      return Done;
    }

    /** Check that every file is served as it was placed; the public answer may be missing. */
    method VerifyPublic(me: nat, package: Package, turns: Schedule) returns (ok: bool)
      requires Valid() && me in publishers && publishers[me].package == package
      requires package.files.Keys <= publishers[me].placed
      modifies this
      ensures Valid() && old(past) <= past && me in publishers && SwapsBy(past[|old(past)|..], me) == 0
      ensures publishers[me] == old(publishers[me])
      ensures AllAnswered(turns) ==> ok
      ensures Quiet(turns) ==> index == old(index)
    {
      hide Run;
      var todo := package.files.Keys;
      var turn := 0;
      while todo != {}
        invariant Valid() && old(past) <= past && me in publishers && SwapsBy(past[|old(past)|..], me) == 0
        invariant publishers[me] == old(publishers[me]) && todo <= package.files.Keys
        invariant Quiet(turns) ==> index == old(index)
        decreases todo
      {
        ghost var start := past;
        Let(turns(turn).others, me);
        SwapsLater(old(past), start, past, me);
        var path :| path in todo;
        todo := todo - {path};
        PlacedIsServed(past, Now(), me, path);
        var reply, served := Read(path, turns(turn).fate);
        turn := turn + 1;
        if reply != Done || served != Some(package.files[path]) {
          return false;
        }
      }
      return true;
    }

    /** Read the index and begin, unless the package cannot follow it. */
    method Start(me: nat, package: Package, fate: Fate) returns (ok: bool)
      requires Valid() && PackageOk(package) && me !in publishers
      modifies this`publishers, this`past
      ensures ok ==> Ready(me, Publisher(package, index, {}, {}))
      ensures ok && index.Some? ==> index.value.IndexFile?
      ensures Valid() && past == old(past) + if ok then [Begin(me, package)] else []
      ensures publishers == if ok then old(publishers)[me := Publisher(package, index, {}, {})] else old(publishers)
      ensures ok <==> fate.Answered? && BeginEnabled(old(Now()), package)
    {
      assert past + [] == past;
      if !fate.Answered? {
        return false;
      }
      if index.Some? && (!index.value.IndexFile? || !UpdatesRevision(index.value.index, package.index.index)) {
        return false;
      }
      Traces(past, Now(), Begin(me, package));
      publishers := publishers[me := Publisher(package, index, {}, {})];
      past := past + [Begin(me, package)];
      return true;
    }

    /** Compare both published documents with their successors. */
    method Compare(me: nat, package: Package, turns: Schedule) returns (ok: bool)
      requires Valid() && me in publishers && publishers[me].package == package && PackageOk(package)
      requires publishers[me].seen.Some? ==> publishers[me].seen.value.IndexFile?
      modifies this
      ensures Valid() && old(past) <= past && me in publishers && SwapsBy(past[|old(past)|..], me) == 0
      ensures publishers[me] == old(publishers[me]).(checked := publishers[me].checked)
      ensures ok ==> Compared(publishers[me])
      ensures Quiet(turns) ==> assets == old(assets) && index == old(index)
      ensures Quiet(turns) && old(publishers[me].seen.Some? ==> ComparesWell(Now(), publishers[me])) ==> ok
    {
      hide Run, PackageOk;
      if publishers[me].seen.None? {
        return true;
      }
      PackageHasIndex(package);
      var previous := publishers[me].seen.value.index;
      ghost var start := past;
      Let(turns(0).others, me);
      ghost var first := past;
      ok := CompareKind(me, previous, package, SponsorKind, turns(0).fate);
      SwapsLater(start, first, past, me);
      if !ok {
        return;
      }
      ghost var second := past;
      Let(turns(1).others, me);
      ghost var third := past;
      SwapsLater(start, second, third, me);
      ok := CompareKind(me, previous, package, AnnouncementKind, turns(1).fate);
      SwapsLater(start, third, past, me);
    }

    /** Ask for the swap.  When the answer is lost the swap has happened, and the publication is over, or it
        may still happen, once. */
    method AskSwap(me: nat, package: Package, fate: Fate) returns (reply: Reply)
      requires Valid() && me in publishers && publishers[me].package == package
      requires Compared(publishers[me]) && package.files.Keys <= publishers[me].placed
      modifies this`index, this`publishers, this`past
      ensures Valid() && past == old(past) + if me in publishers then [] else [Swap(me)]
      ensures me !in publishers ==> index == Some(package.index)
      ensures reply.Lost? <==> !fate.Answered?
      ensures reply.Done? ==> me !in publishers
      ensures reply.Refused? ==> me in publishers
      ensures fate.Answered? ==> (reply.Done? <==> old(index) == old(publishers[me]).seen)
    {
      assert past + [] == past;
      ghost var before := Now();
      var matches := index == publishers[me].seen;
      reply := ReplaceIndex(publishers[me].seen, package.index, fate);
      if fate != LostBefore && matches {
        Traces(past, before, Swap(me));
        publishers := publishers - {me};
        past := past + [Swap(me)];
      }
    }

    method Leave(me: nat)
      requires Valid()
      modifies this`publishers, this`past
      ensures Valid() && publishers == old(publishers) - {me} && past == old(past) + [Stop(me)]
    {
      Traces(past, Now(), Stop(me));
      publishers := publishers - {me};
      past := past + [Stop(me)];
    }

    /** Swap the index in, if it is still the one seen, and read it back. */
    method Finish(me: nat, package: Package, turns: Schedule) returns (r: Outcome)
      requires Valid() && me in publishers && publishers[me].package == package
      requires Compared(publishers[me]) && package.files.Keys <= publishers[me].placed
      modifies this
      ensures Valid() && old(past) <= past && Settles(r, SwapsBy(past[|old(past)|..], me), me in publishers)
      ensures r.Published? ==> index == Some(package.index)
      ensures AllAnswered(turns) && r.Unconfirmed? ==> me !in publishers
      ensures Quiet(turns) && old(index) == old(publishers[me]).seen ==> r.Published?
    {
      hide Run;
      ghost var start := past;
      Let(turns(0).others, me);
      ghost var waited := past;
      SwapsLater(start, start, waited, me);
      var reply := AskSwap(me, package, turns(0).fate);
      ghost var asked := past;
      SwapsLater(start, waited, asked, me);
      if reply.Refused? {
        Leave(me);
        SwapsLater(start, asked, past, me);
        return Stopped;
      }
      if reply.Lost? {
        return Unconfirmed;
      }
      Let(turns(1).others, me);
      SwapsLater(start, asked, past, me);
      return if turns(1).fate.Answered? && index == Some(package.index) then Published else Unconfirmed;
    }

    /** `publish`: compare with what is live, put the assets in place, check that they are served, and only
        then swap the index and read it back, while other publishers take any steps between the requests
        and any answer may be lost.  Published, the index was swapped once.  Stopped, by a preflight check,
        a comparison, an asset refused or not confirmed, a file not served or an index that has changed, it
        was not and never will be, even though an asset asked for may still arrive.  Unconfirmed, after the
        swap was asked for, it was swapped once, or not yet and once at most.  Alone on the server and with
        every answer, publishing succeeds for every package that may follow what is live. */
    method Publish(me: nat, package: Package, turns: nat -> Schedule) returns (r: Outcome)
      requires Valid() && PackageOk(package) && me !in publishers
      modifies this
      ensures Valid() && old(past) <= past && Settles(r, SwapsBy(past[|old(past)|..], me), me in publishers)
      ensures r.Published? ==> index == Some(package.index)
      ensures (forall k: nat :: AllAnswered(turns(k))) && r.Unconfirmed? ==> me !in publishers
      ensures Publishable(old(Now()), package) && (forall k: nat :: Quiet(turns(k))) ==> r.Published?
    {
      hide Run, PackageOk, Publishable, BeginEnabled, ComparesWell, NoConflict;
      ghost var start, before, begins := past, Now(), Publisher(package, index, {}, {});
      if Publishable(before, package) {
        LiveChecks(past, before, before.(publishers := publishers[me := begins]), begins);
      }
      var ok := Start(me, package, turns(0)(0).fate);
      ghost var begun := past;
      SwapsLater(start, start, begun, me);
      if !ok {
        return Stopped;
      }
      ok := Compare(me, package, turns(1));
      ghost var compared := past;
      SwapsLater(start, begun, compared, me);
      if !ok {
        Leave(me);
        SwapsLater(start, compared, past, me);
        return Stopped;
      }
      var reply := PlaceAll(me, package, turns(2));
      ghost var placed := past;
      SwapsLater(start, compared, placed, me);
      if reply.Lost? {
        return Stopped;
      }
      ok := reply.Done?;
      if ok {
        ok := VerifyPublic(me, package, turns(3));
      }
      ghost var verified := past;
      SwapsLater(start, placed, verified, me);
      if !ok {
        Leave(me);
        SwapsLater(start, verified, past, me);
        return Stopped;
      }
      r := Finish(me, package, turns(4));
      SwapsLater(start, verified, past, me);
    }
  }

  /** What an outcome says about the swaps made and whether one may still come. */
  predicate Settles(r: Outcome, swaps: nat, going: bool) {
    match r
    case Published => swaps == 1 && !going
    case Stopped => swaps == 0 && !going
    case Unconfirmed => swaps == if going then 0 else 1
  }

  /** The server accepts an asset. */
  predicate Accepts(assets: map<string, Bytes>, path: string, payload: Bytes, digest: Bytes) {
    Immutable(path) && payload == digest && (path in assets ==> assets[path] == payload)
  }

  predicate Fits(assets: map<string, Bytes>, package: Package, path: string)
    requires path in package.files
  {
    Immutable(path) && (path in assets ==> assets[path] == package.files[path])
  }

  /** What a publisher placed is there, whatever the others did since. */
  lemma PlacedIsServed(past: seq<Action>, s: Sys, me: nat, path: string)
    requires Run(INITIAL, past) == Some(s) && me in s.publishers && path in s.publishers[me].placed
    ensures path in s.assets && path in s.publishers[me].package.files
    ensures s.assets[path] == s.publishers[me].package.files[path]
  {
    assert Reachable(s);
    ReachableInv(s);
    assert PublisherOk(s, s.publishers[me]);
  }

  // ---- read_package ----------------------------------------------------------------------------

  /** The files are among those of the directory. */
  predicate Among(files: map<string, Bytes>, dir: map<string, Bytes>) {
    forall path | path in files :: path in dir && dir[path] == files[path]
  }

  /** The document a descriptor names, if the directory holds it as stated. */
  method ReadDocument(dir: map<string, Bytes>, d: Descriptor, kind: ContentPublication.Kind)
    returns (document: Option<Document>)
    ensures document.Some? <==> Holds(dir, d, kind)
    ensures document.Some? ==> d.digest.document == document.value
  {
    if !Immutable(d.path) || d.path !in dir || dir[d.path] != d.digest || !dir[d.path].DocumentFile? {
      return None;
    }
    var parsed := dir[d.path].document;
    if !DocumentOk(parsed, kind) || parsed.revision != d.revision {
      return None;
    }
    return Some(parsed);
  }

  /** Add the avatars the sponsors name. */
  method ReadAvatars(dir: map<string, Bytes>, d: Descriptor, sponsors: seq<Sponsor>, files: map<string, Bytes>)
    returns (all: map<string, Bytes>, ok: bool)
    requires Among(files, dir)
    ensures Among(all, dir) && Extends(files, all)
    ensures ok <==> forall k | 0 <= k < |sponsors| :: HoldsAvatar(dir, d, sponsors[k])
    ensures ok ==> forall k | 0 <= k < |sponsors| :: HoldsAvatar(all, d, sponsors[k])
  {
    all, ok := files, true;
    for k := 0 to |sponsors|
      invariant ok && Among(all, dir) && Extends(files, all)
      invariant forall i | 0 <= i < k :: HoldsAvatar(dir, d, sponsors[i]) && HoldsAvatar(all, d, sponsors[i])
    {
      if sponsors[k].avatar.Some? {
        var path := Folder(d.path) + sponsors[k].avatar.value.path;
        if path !in dir || dir[path] != sponsors[k].avatar.value.digest {
          assert !HoldsAvatar(dir, d, sponsors[k]);
          return all, false;
        }
        all := all[path := dir[path]];
      }
    }
  }

  /** `read_package`: what a publisher steps with is whole, and a whole directory is never refused. */
  method ReadPackage(dir: map<string, Bytes>) returns (package: Option<Package>)
    ensures package.Some? ==> PackageOk(package.value) && Among(package.value.files, dir)
    ensures package.Some? <==>
            "index.json" in dir && dir["index.json"].IndexFile? && Backed(dir, dir["index.json"].index)
  {
    if "index.json" !in dir || !dir["index.json"].IndexFile? || !Revision(dir["index.json"].index.revision) {
      return None;
    }
    var index := dir["index.json"].index;
    var sponsors := ReadDocument(dir, index.sponsors, SponsorKind);
    if sponsors.None? {
      return None;
    }
    var announcements := ReadDocument(dir, index.announcements, AnnouncementKind);
    if announcements.None? {
      return None;
    }
    var files := map[index.sponsors.path := dir[index.sponsors.path],
                     index.announcements.path := dir[index.announcements.path]];
    var all, ok := ReadAvatars(dir, index.sponsors, sponsors.value.sponsors, files);
    if !ok {
      return None;
    }
    return Some(Package(dir["index.json"], all));
  }

  // ---- bookkeeping -----------------------------------------------------------------------------

  lemma SwapsAppend(actions: seq<Action>, a: Action, me: nat)
    ensures SwapsBy(actions + [a], me) == SwapsBy(actions, me) + (if a == Swap(me) then 1 else 0)
  {
    assert (actions + [a])[..|actions|] == actions;
  }

  lemma {:induction false} SwapsConcat(a: seq<Action>, b: seq<Action>, me: nat)
    ensures SwapsBy(a + b, me) == SwapsBy(a, me) + SwapsBy(b, me)
  {
    if b == [] {
      assert a + b == a;
    } else {
      SwapsConcat(a, b[..|b| - 1], me);
      assert (a + b)[..|a + b| - 1] == a + b[..|b| - 1];
    }
  }

  /** What may follow the live index passes both comparisons with it. */
  lemma LiveChecks(past: seq<Action>, s: Sys, t: Sys, p: Publisher)
    requires Run(INITIAL, past) == Some(s) && PackageOk(p.package) && Publishable(s, p.package)
    requires t.assets == s.assets && p.seen == s.index
    ensures BeginEnabled(s, p.package) && NoConflict(s.assets, p.package)
    ensures s.index.Some? ==> ComparesWell(t, p)
  {
    assert Reachable(s);
    ReachableInv(s);
  }

  /** Both published documents may be followed by the package's. */
  predicate ComparesWell(s: Sys, p: Publisher) {
    CheckEnabled(s, p, SponsorKind) && CheckEnabled(s, p, AnnouncementKind)
  }

  lemma PackageHasIndex(package: Package)
    requires PackageOk(package)
    ensures package.index.IndexFile?
  {
  }

  /** The swaps of a stretch are those of its two parts. */
  lemma SwapsLater(a: seq<Action>, b: seq<Action>, c: seq<Action>, me: nat)
    requires a <= b <= c
    ensures SwapsBy(c[|a|..], me) == SwapsBy(b[|a|..], me) + SwapsBy(c[|b|..], me)
    ensures a == b ==> SwapsBy(b[|a|..], me) == 0
    ensures b == c ==> SwapsBy(c[|b|..], me) == 0
    ensures |c| == |b| + 1 ==> SwapsBy(c[|b|..], me) == if c[|b|] == Swap(me) then 1 else 0
  {
    assert c[|a|..] == b[|a|..] + c[|b|..];
    SwapsConcat(b[|a|..], c[|b|..], me);
    if |c| == |b| + 1 {
      SwapsAppend([], c[|b|], me);
      assert c[|b|..] == [] + [c[|b|]];
    }
  }

  lemma Traces(past: seq<Action>, s: Sys, a: Action)
    requires Run(INITIAL, past) == Some(s) && Enabled(s, a)
    ensures Run(INITIAL, past + [a]) == Some(Effect(s, a))
  {
    assert (past + [a])[..|past|] == past;
  }

  /** A step of another publisher, or of a request given up, leaves this one's record alone. */
  lemma OnlyItsOwn(s: Sys, a: Action, me: nat)
    requires Enabled(s, a) && (a.who != me || a.Arrive?)
    ensures me in Effect(s, a).publishers <==> me in s.publishers
    ensures me in s.publishers ==> Effect(s, a).publishers[me] == s.publishers[me]
  {
  }
}
