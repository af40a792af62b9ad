/** Activating a release on a host as a transaction over managed files, the release link and unit flags.

    Any step may fail, before or after it took effect; the steps that restore are taken to succeed. */
module HomeInstaller {
  import opened HealthEvents

  datatype Role = Gateway | Node

  /** A file's bytes, mode and group. */
  datatype Saved = Saved(bytes: string, mode: nat, gid: nat)

  /** What a sealed release holds for the installer. */
  datatype Release = Release(kind: Role, deploy: map<string, string>)

  /** The state a transaction is about. */
  datatype Managed = Managed(files: map<string, Saved>, release: Option<string>, enabled: set<string>,
                             active: set<string>)

  /** How things stood before: the link, every changed path, and both flags of every unit. */
  datatype Baseline = Baseline(previous: Option<string>, files: map<string, Option<Saved>>, enabled: map<string, bool>,
                               active: map<string, bool>)

  /** A reference to a backup copy. */
  datatype Copy = Copy(file: nat, mode: nat, gid: nat)

  /** `rollback.json` and the copies beside it. */
  datatype Record = Record(previous: Option<string>, files: map<string, Option<Copy>>, enabled: map<string, bool>,
                           active: map<string, bool>, copies: map<nat, string>)

  const HUB := "hexproof-home-hub.service"
  const NODE_UNIT := "hexproof-home-node.service"
  const GATEWAY_UNIT := "hexproof-home-gateway.service"
  const NGINX := "/etc/nginx/conf.d/hexproof-ip.conf"
  const SNIPPET := "/etc/nginx/snippets/hexproof-home.inc"
  const INCLUDE := "hexproof-home-nginx.inc"
  const FILE_MODE: nat := 420      // octal 644

  function ConfigPath(kind: Role): string {
    match kind case Gateway => "/etc/hexproof-home/gateway.json" case Node => "/etc/hexproof-home/node.json"
  }

  function UnitPath(name: string): string {
    "/etc/systemd/system/" + name
  }

  function Units(kind: Role): seq<string> {
    match kind case Gateway => [GATEWAY_UNIT] case Node => [HUB, NODE_UNIT]
  }

  function ChangedPaths(kind: Role): seq<string> {
    match kind
    case Gateway => [ConfigPath(kind), UnitPath(GATEWAY_UNIT), NGINX, SNIPPET]
    case Node => [ConfigPath(kind), UnitPath(HUB), UnitPath(NODE_UNIT)]
  }

  function AllowedUnits(): set<string> {
    {HUB, NODE_UNIT, GATEWAY_UNIT}
  }

  function AllowedPaths(): set<string> {
    {ConfigPath(Gateway), ConfigPath(Node), NGINX, SNIPPET, UnitPath(HUB), UnitPath(NODE_UNIT), UnitPath(GATEWAY_UNIT)}
  }

  // ---- the transaction on values ---------------------------------------------------------------

  function Elements(s: seq<string>): set<string> {
    set x | x in s
  }

  function BaselineOf(m: Managed, paths: set<string>, units: set<string>): Baseline {
    Baseline(m.release,
             map p | p in paths :: if p in m.files then Some(m.files[p]) else None,
             map u | u in units :: u in m.enabled,
             map u | u in units :: u in m.active)
  }

  /** The state after everything the baseline speaks of is put back. */
  function Restored(m: Managed, b: Baseline): Managed {
    Managed(RestoredFiles(m.files, b.files), b.previous,
            (m.enabled - b.enabled.Keys) + (set u | u in b.enabled && b.enabled[u]),
            (m.active - b.active.Keys) + (set u | u in b.active && b.active[u]))
  }

  /** Only these paths, the link and these units' flags may differ. */
  ghost predicate ChangesOnly(m: Managed, n: Managed, paths: set<string>, units: set<string>) {
    && (forall p | p !in paths :: (p in n.files <==> p in m.files) && (p in m.files ==> n.files[p] == m.files[p]))
    && n.enabled - units == m.enabled - units && n.active - units == m.active - units
  }

  /** Putting the baseline back undoes any change of what it covers, wherever the change stopped. */
  lemma RestoringUndoes(m: Managed, n: Managed, paths: set<string>, units: set<string>)
    requires ChangesOnly(m, n, paths, units)
    ensures Restored(n, BaselineOf(m, paths, units)) == m
  {
    var b := BaselineOf(m, paths, units);
    assert Restored(n, b).files == m.files;
    forall u
      ensures u in Restored(n, b).enabled <==> u in m.enabled
      ensures u in Restored(n, b).active <==> u in m.active
    {
      if u !in units {
        assert u in n.enabled - units <==> u in m.enabled - units;
        assert u in n.active - units <==> u in m.active - units;
      }
    }
    assert Restored(n, b).enabled == m.enabled && Restored(n, b).active == m.active;
  }

  /** The baseline a record and its copies stand for, if every copy is there. */
  function Decoded(r: Record): Option<Baseline> {
    if forall p | p in r.files :: r.files[p].Some? ==> r.files[p].value.file in r.copies then
      Some(Baseline(r.previous,
                    map p | p in r.files :: if r.files[p].None? then None
                        else Some(Saved(r.copies[r.files[p].value.file], r.files[p].value.mode, r.files[p].value.gid)),
                    r.enabled, r.active))
    else None
  }

  /** `rollback` accepts only records about this program's units and files. */
  predicate Manageable(r: Record) {
    r.active.Keys != {} && r.active.Keys <= AllowedUnits() && r.enabled.Keys == r.active.Keys
        && r.files.Keys <= AllowedPaths()
  }

  datatype Outcome = Activated | Unchanged | Checked | Refused | Failed

  function Deployed(r: Release, name: string): Saved
    requires name in r.deploy
  {
    Saved(r.deploy[name], FILE_MODE, 0)
  }

  /** The files after an activation that went through. */
  function NewFiles(files: map<string, Saved>, r: Release, config: Saved, nginx: Option<string>): map<string, Saved>
    requires forall name | name in Elements(Units(r.kind)) :: name in r.deploy
    requires nginx.Some? ==> INCLUDE in r.deploy
  {
    var configured := files[ConfigPath(r.kind) := config];
    var served := match r.kind
      case Gateway => configured[UnitPath(GATEWAY_UNIT) := Deployed(r, GATEWAY_UNIT)]
      case Node => configured[UnitPath(HUB) := Deployed(r, HUB)][UnitPath(NODE_UNIT) := Deployed(r, NODE_UNIT)];
    if nginx.Some? then served[SNIPPET := Deployed(r, INCLUDE)][NGINX := Saved(nginx.value, FILE_MODE, 0)] else served
  }

  lemma ChangesTrans(m: Managed, n: Managed, o: Managed, paths: set<string>, units: set<string>)
    requires ChangesOnly(m, n, paths, units) && ChangesOnly(n, o, paths, units)
    ensures ChangesOnly(m, o, paths, units)
  {
  }

  class Host {
    var files: map<string, Saved>
    var release: Option<string>
    var enabled: set<string>
    var active: set<string>
    var releases: map<string, Release>
    var records: map<string, Record>

    constructor (files: map<string, Saved>, release: Option<string>, enabled: set<string>, active: set<string>,
                 releases: map<string, Release>)
      ensures Now() == Managed(files, release, enabled, active) && this.releases == releases && records == map[]
    {
      this.files, this.release, this.enabled, this.active := files, release, enabled, active;
      this.releases, records := releases, map[];
    }

    ghost function Now(): Managed
      reads this
    {
      Managed(files, release, enabled, active)
    }

    // ---- steps that may fail -------------------------------------------------------------------

    method TryWrite(path: string, saved: Saved) returns (ok: bool)
      modifies this`files
      ensures ok ==> files == old(files)[path := saved]
      ensures files == old(files) || files == old(files)[path := saved]
    {
      ok := *;
      var applied: bool := *;
      if ok || applied {
        files := files[path := saved];
      }
    }

    method TrySwitch(id: string) returns (ok: bool)
      modifies this`release
      ensures ok ==> release == Some(id)
    {
      ok := *;
      var applied: bool := *;
      if ok || applied {
        release := Some(id);
      }
    }

    /** Enable and restart one unit. */
    method TryStart(name: string) returns (ok: bool)
      modifies this`enabled, this`active
      ensures enabled - {name} == old(enabled) - {name} && active - {name} == old(active) - {name}
      ensures ok ==> name in enabled && name in active && old(enabled) <= enabled && old(active) <= active
    {
      var enables: bool, stops: bool, starts: bool := *, *, *;
      if enables {
        enabled := enabled + {name};
      }
      if enables && stops {
        active := active - {name};
      }
      if enables && starts {
        active := active + {name};
      }
      ok := enables && starts;
    }

    /** A read-only step, such as waiting for readiness or testing a configuration. */
    method TryCheck() returns (ok: bool)
    {
      ok := *;
    }

    // ---- the transaction -----------------------------------------------------------------------

    /** Write a unit file from the new release. */
    method TryDeploy(id: string, name: string, path: string) returns (ok: bool)
      requires id in releases
      modifies this`files
      ensures ok ==> name in releases[id].deploy && files == old(files)[path := Deployed(releases[id], name)]
      ensures files == old(files)
              || (name in releases[id].deploy && files == old(files)[path := Deployed(releases[id], name)])
    {
      if name !in releases[id].deploy {
        return false;
      }
      ok := TryWrite(path, Saved(releases[id].deploy[name], FILE_MODE, 0));
    }

    /** Write every unit file of the role. */
    method TryDeployUnits(id: string) returns (ok: bool)
      requires id in releases
      modifies this`files
      ensures ChangesOnly(old(Now()), Now(), Elements(ChangedPaths(releases[id].kind)), {})
      ensures ok ==> (forall name | name in Elements(Units(releases[id].kind)) :: name in releases[id].deploy)
      ensures ok ==> files == match releases[id].kind
                              case Gateway => old(files)[UnitPath(GATEWAY_UNIT) := Deployed(releases[id], GATEWAY_UNIT)]
                              case Node =>
                                old(files)[UnitPath(HUB) := Deployed(releases[id], HUB)]
                                          [UnitPath(NODE_UNIT) := Deployed(releases[id], NODE_UNIT)]
    {
      var names := Units(releases[id].kind);
      if releases[id].kind.Gateway? {
        ok := TryDeploy(id, names[0], UnitPath(names[0]));
        return;
      }
      ok := TryDeploy(id, names[0], UnitPath(names[0]));
      if ok {
        ok := TryDeploy(id, names[1], UnitPath(names[1]));
      }
    }

    /** Enable and restart every unit of the role. */
    method TryStartUnits(kind: Role) returns (ok: bool)
      modifies this`enabled, this`active
      ensures ChangesOnly(old(Now()), Now(), {}, Elements(Units(kind)))
      ensures ok ==> enabled == old(enabled) + Elements(Units(kind)) && active == old(active) + Elements(Units(kind))
    {
      var names := Units(kind);
      for i := 0 to |names|
        invariant enabled - Elements(names) == old(enabled) - Elements(names)
                  && active - Elements(names) == old(active) - Elements(names)
        invariant old(enabled) <= enabled && old(active) <= active
        invariant forall k | 0 <= k < i :: names[k] in enabled && names[k] in active
      {
        assert names[i] in Elements(names);
        ghost var before, running := enabled, active;
        ok := TryStart(names[i]);
        OthersKept(old(enabled), before, enabled, Elements(names), names[i]);
        OthersKept(old(active), running, active, Elements(names), names[i]);
        if !ok {
          return;
        }
      }
      ok := true;
      assert enabled == old(enabled) + Elements(names) by {
        AllStarted(old(enabled), enabled, names);
      }
      assert active == old(active) + Elements(names) by {
        AllStarted(old(active), active, names);
      }
    }

    /** Publish the gateway through the web server. */
    method TryPublish(id: string, nginx: string) returns (ok: bool)
      requires id in releases
      modifies this`files
      ensures ChangesOnly(old(Now()), Now(), {SNIPPET, NGINX}, {})
      ensures ok ==>
                && INCLUDE in releases[id].deploy
                && files == old(files)[SNIPPET := Deployed(releases[id], INCLUDE)][NGINX := Saved(nginx, FILE_MODE, 0)]
    {
      ok := TryDeploy(id, INCLUDE, SNIPPET);
      if ok {
        ok := TryWrite(NGINX, Saved(nginx, FILE_MODE, 0));
      }
      if ok {
        ok := TryCheck();
      }
    }

    /** The steps of an activation, any of which may fail. */
    method TryActivate(id: string, config: Saved, nginx: Option<string>) returns (ok: bool)
      requires id in releases && (nginx.Some? <==> releases[id].kind.Gateway?)
      modifies this`files, this`release, this`enabled, this`active
      ensures ChangesOnly(old(Now()), Now(), Elements(ChangedPaths(releases[id].kind)),
                          Elements(Units(releases[id].kind)))
      ensures ok ==> (forall name | name in Elements(Units(releases[id].kind)) :: name in releases[id].deploy)
      ensures ok && nginx.Some? ==> INCLUDE in releases[id].deploy
      ensures ok ==> files == NewFiles(old(files), releases[id], config, nginx) && release == Some(id)
      ensures ok ==>
                && enabled == old(enabled) + Elements(Units(releases[id].kind))
                && active == old(active) + Elements(Units(releases[id].kind))
    {
      var kind := releases[id].kind;
      assert ConfigPath(kind) in ChangedPaths(kind);
      ok := TryWrite(ConfigPath(kind), config);
      if ok {
        ok := TryDeployUnits(id);
      }
      if ok {
        ok := TrySwitch(id);
      }
      if ok {
        ok := TryStartUnits(kind);
      }
      if ok {
        ok := TryCheck();
      }
      if ok && nginx.Some? {
        assert SNIPPET in ChangedPaths(kind) && NGINX in ChangedPaths(kind);
        ok := TryPublish(id, nginx.value);
      }
    }

    // ---- restoring -----------------------------------------------------------------------------

    /** Put every backed-up file back, or remove it where there was none. */
    method RestoreFiles(backups: map<string, Option<Saved>>)
      modifies this`files
      ensures files == RestoredFiles(old(files), backups)
    {
      var todo := backups.Keys;
      while todo != {}
        invariant todo <= backups.Keys
        invariant forall p :: p in files <==> if p in backups && p !in todo then backups[p].Some? else p in old(files)
        invariant forall p | p in files :: files[p] == if p in backups && p !in todo then backups[p].value
                  else old(files)[p]
        decreases todo
      {
        var path :| path in todo;
        todo := todo - {path};
        if backups[path].None? {
          files := files - {path};
        } else {
          files := files[path := backups[path].value];
        }
      }
      assert files == RestoredFiles(old(files), backups);
    }

    /** Give every unit its flags back; all of them are stopped at this point. */
    method RestoreUnits(b: Baseline)
      requires b.enabled.Keys == b.active.Keys && active !! b.active.Keys
      modifies this`enabled, this`active
      ensures enabled == (old(enabled) - b.enabled.Keys) + (set u | u in b.enabled && b.enabled[u])
      ensures active == old(active) + (set u | u in b.active && b.active[u])
    {
      var todo := b.enabled.Keys;
      while todo != {}
        invariant todo <= b.enabled.Keys
        invariant forall u :: u in enabled <==> if u in b.enabled && u !in todo then b.enabled[u] else u in old(enabled)
        invariant forall u :: u in active <==> u in old(active) || (u in b.active && u !in todo && b.active[u])
        decreases todo
      {
        var name :| name in todo;
        todo := todo - {name};
        enabled := if b.enabled[name] then enabled + {name} else enabled - {name};
        if b.active[name] {
          active := active + {name};
        }
      }
    }

    /** Stop the units, point the link back, put the files back, and restore the unit flags. */
    method Restore(b: Baseline)
      requires b.enabled.Keys == b.active.Keys
      modifies this`files, this`release, this`enabled, this`active
      ensures Now() == Restored(old(Now()), b)
    {
      active := active - b.active.Keys;
      release := b.previous;
      RestoreFiles(b.files);
      RestoreUnits(b);
    }

    /** A restoration that a crash cuts short: it gets through any part of its steps. */
    method RestorePart(b: Baseline)
      requires b.enabled.Keys == b.active.Keys
      modifies this`files, this`release, this`enabled, this`active
      ensures ChangesOnly(old(Now()), Now(), b.files.Keys, b.active.Keys)
    {
      var stopped: set<string>, started: set<string>, on: set<string>, off: set<string> := *, *, *, *;
      var linked: bool := *;
      active := (active - stopped * b.active.Keys) + (started * b.active.Keys);
      enabled := (enabled - off * b.enabled.Keys) + (on * b.enabled.Keys);
      if linked {
        release := b.previous;
      }
      var reached: set<string> := *;
      var part := map p | p in b.files && p in reached :: b.files[p];
      RestoreFiles(part);
    }

    // ---- the record ----------------------------------------------------------------------------

    method Backups(paths: seq<string>) returns (backups: map<string, Option<Saved>>)
      ensures backups == BaselineOf(Now(), Elements(paths), {}).files
    {
      backups := map[];
      for i := 0 to |paths|
        invariant backups == BaselineOf(Now(), Elements(paths[..i]), {}).files
      {
        ghost var before := backups;
        assert paths[..i + 1] == paths[..i] + [paths[i]];
        ElementsAppend(paths[..i], paths[i]);
        backups := backups[paths[i] := if paths[i] in files then Some(files[paths[i]]) else None];
      }
      assert paths[..|paths|] == paths;
    }

    /** Write a numbered copy of every backed-up file and the record that names them. */
    method WriteRecord(id: string, b: Baseline, paths: seq<string>)
      requires b.files.Keys == Elements(paths)
      requires forall i, j | 0 <= i < j < |paths| :: paths[i] != paths[j]
      modifies this`records
      ensures id in records && Decoded(records[id]) == Some(b) && records == old(records)[id := records[id]]
      ensures records[id].enabled == b.enabled && records[id].active == b.active
              && records[id].files.Keys == b.files.Keys
    {
      var entries: map<string, Option<Copy>> := map[];
      var copies: map<nat, string> := map[];
      for i := 0 to |paths|
        invariant records == old(records)
        invariant forall p :: p in entries <==> p in paths[..i]
        invariant forall k: nat | k < i :: CopyAt(entries, copies, b, paths[k], k)
      {
        hide CopyAt;
        var path := paths[i];
        assert path in Elements(paths);
        ghost var entered, copied := entries, copies;
        if b.files[path].Some? {
          var was := b.files[path].value;
          copies := copies[i := was.bytes];
          entries := entries[path := Some(Copy(i, was.mode, was.gid))];
        } else {
          entries := entries[path := None];
        }
        CopiesGrow(entered, copied, entries, copies, b, paths, i);
      }
      assert paths[..|paths|] == paths;
      var r := Record(b.previous, entries, b.enabled, b.active, copies);
      RecordStands(r, b, paths);
      assert Decoded(r) == Some(b) && r.files.Keys == b.files.Keys;
      hide Decoded;
      records := records[id := r];
    }

    // ---- install and rollback ------------------------------------------------------------------

    /** What `install` finds out before it changes anything: the answer, or go on. */
    method Preflight(q: Request) returns (answer: Option<Outcome>)
      ensures answer.None? <==> Ready(q) && q.activate
      ensures answer.Some? ==> answer.value.Unchanged? || answer.value.Checked? || answer.value.Refused?
      ensures answer == Some(Unchanged) ==> release == Some(q.id)
    {
      if !q.acceptable || (q.staged.kind.Gateway? && q.nginx.None?) || (q.staged.kind.Node? && q.nginx.Some?) {
        return Some(Refused);
      }
      if release.Some? && (release.value !in releases || releases[release.value].kind != q.staged.kind) {
        return Some(Refused);
      }
      if release == Some(q.id) {
        var same := TryCheck();
        return Some(if same && releases[q.id] == q.staged then Unchanged else Refused);
      }
      if !q.activate {
        return Some(Checked);
      }
      if q.id in releases {
        return Some(Refused);
      }
      return None;
    }

    ghost predicate Ready(q: Request)
      reads this
    {
      && q.acceptable && (q.nginx.Some? <==> q.staged.kind.Gateway?) && q.id !in releases
      && (release.Some? ==> release.value in releases && releases[release.value].kind == q.staged.kind)
    }

    /** Retain the record of how things stood. */
    method Retain(q: Request) returns (b: Baseline)
      modifies this`records
      ensures b == BaselineOf(Now(), Elements(ChangedPaths(q.staged.kind)), Elements(Units(q.staged.kind)))
      ensures q.id in records && Decoded(records[q.id]) == Some(b) && Manageable(records[q.id])
    {
      var paths, units := ChangedPaths(q.staged.kind), Units(q.staged.kind);
      var backups := Backups(paths);
      var enabledWas := map u | u in Elements(units) :: u in enabled;
      var activeWas := map u | u in Elements(units) :: u in active;
      b := Baseline(release, backups, enabledWas, activeWas);
      PathsAreDistinct(q.staged.kind);
      WriteRecord(q.id, b, paths);
      RoleIsManageable(q.staged.kind, records[q.id]);
    }

    /** `install`: unless it ends activated, the managed state is as before, wherever it failed; when it
        ends activated the new release is in place and the record of the state before is retained. */
    method Install(q: Request) returns (r: Outcome)
      modifies this
      ensures !r.Activated? ==> Now() == old(Now())
      ensures r.Activated? ==>
                && q.activate && Installs(old(Now()), Now(), q) && releases == old(releases)[q.id := q.staged]
                && q.id in records && Manageable(records[q.id])
                && Decoded(records[q.id]) == Some(BaselineOf(old(Now()), Elements(ChangedPaths(q.staged.kind)),
                                                             Elements(Units(q.staged.kind))))
      ensures r.Activated? ==> (old(release).Some? ==> old(release).value in old(releases))
      ensures r.Activated? ==> ChangesOnly(old(Now()), Now(), Elements(ChangedPaths(q.staged.kind)),
                                           Elements(Units(q.staged.kind)))
      ensures r.Unchanged? ==> old(release) == Some(q.id)
      ensures r.Activated? || r.Failed? ==> old(Ready(q)) && q.activate
      ensures old(Ready(q)) && q.activate && q.id !in old(records) ==> r.Activated? || r.Failed?
    {
      hide ChangesOnly, Manageable, NewFiles;
      var answer := Preflight(q);
      if answer.Some? {
        return answer.value;
      }
      ghost var before := Now();
      releases := releases[q.id := q.staged];
      if q.id in records {
        return Refused;
      }
      var b := Retain(q);
      var ok := TryActivate(q.id, q.config, q.nginx);
      if ok {
        return Activated;
      }
      RestoringUndoes(before, Now(), Elements(ChangedPaths(q.staged.kind)), Elements(Units(q.staged.kind)));
      Restore(b);
      return Failed;
    }

    /** `rollback`: checks the record, and if asked to, puts back all it speaks of. */
    method Rollback(id: string, activate: bool) returns (ok: bool)
      modifies this`files, this`release, this`enabled, this`active
      ensures ok <==> id in records && Manageable(records[id]) && Decoded(records[id]).Some?
                      && (records[id].previous.Some? ==> records[id].previous.value in releases)
      ensures Now() == if ok && activate then Restored(old(Now()), Decoded(records[id]).value) else old(Now())
    {
      if id !in records || !Manageable(records[id]) {
        return false;
      }
      var b := Decoded(records[id]);
      if b.None? || (records[id].previous.Some? && records[id].previous.value !in releases) {
        return false;
      }
      if activate {
        Restore(b.value);
      }
      return true;
    }

    /** A successful installation followed by the rollback of its record leaves everything as it was. */
    method InstallAndRollBack(q: Request) returns (r: Outcome, undone: bool)
      modifies this
      ensures Now() == old(Now())
      ensures r.Activated? <==> undone
    {
      hide ChangesOnly, Manageable, Installs;
      ghost var before := Now();
      r := Install(q);
      undone := false;
      if r.Activated? {
        RestoringUndoes(before, Now(), Elements(ChangedPaths(q.staged.kind)), Elements(Units(q.staged.kind)));
        DecodedPrevious(records[q.id]);
        undone := Rollback(q.id, true);
      }
    }

    /** An installation cut short by a crash at any step after its record was written, perhaps while it was
        restoring, and then the rollback of that record: everything is as it was. */
    method CrashAndRollBack(q: Request) returns (undone: bool)
      requires Ready(q) && q.activate && q.id !in records
      modifies this
      ensures undone && Now() == old(Now())
    {
      hide ChangesOnly, Manageable, NewFiles;
      ghost var before, paths, units := Now(), Elements(ChangedPaths(q.staged.kind)), Elements(Units(q.staged.kind));
      releases := releases[q.id := q.staged];
      var b := Retain(q);
      var finished := TryActivate(q.id, q.config, q.nginx);
      if !finished {
        ghost var reached := Now();
        assert b.files.Keys == paths && b.enabled.Keys == units && b.active.Keys == units;
        RestorePart(b);
        ChangesTrans(before, reached, Now(), paths, units);
      }
      RestoringUndoes(before, Now(), paths, units);
      DecodedPrevious(records[q.id]);
      undone := Rollback(q.id, true);
    }
  }

  /** What is asked of `install`; `acceptable` stands for the checks of bundle, configuration and versions,
      and `nginx` for the web server's configuration with the include added, if its layout is known. */
  datatype Request = Request(id: string, staged: Release, acceptable: bool, config: Saved, nginx: Option<string>,
                             activate: bool)

  /** The state after an activation. */
  ghost predicate Installs(m: Managed, n: Managed, q: Request) {
    && (forall name | name in Elements(Units(q.staged.kind)) :: name in q.staged.deploy)
    && (q.nginx.Some? ==> INCLUDE in q.staged.deploy)
    && n.files == NewFiles(m.files, q.staged, q.config, q.nginx) && n.release == Some(q.id)
    && n.enabled == m.enabled + Elements(Units(q.staged.kind)) && n.active == m.active + Elements(Units(q.staged.kind))
  }

  lemma DecodedPrevious(r: Record)
    requires Decoded(r).Some?
    ensures Decoded(r).value.previous == r.previous
  {
  }

  lemma PathsAreDistinct(kind: Role)
    ensures forall i, j | 0 <= i < j < |ChangedPaths(kind)| :: ChangedPaths(kind)[i] != ChangedPaths(kind)[j]
  {
    assert UnitPath(HUB)[|UnitPath("")| + 14] == 'h' && UnitPath(NODE_UNIT)[|UnitPath("")| + 14] == 'n';
    assert ConfigPath(Gateway)[5] == 'h' && NGINX[5] == 'n' && SNIPPET[5] == 'n' && UnitPath(GATEWAY_UNIT)[5] == 's';
    assert ConfigPath(Node)[5] == 'h' && UnitPath(HUB)[5] == 's' && UnitPath(NODE_UNIT)[5] == 's';
    assert NGINX[11] == 'c' && SNIPPET[11] == 's';
  }

  lemma RoleIsManageable(kind: Role, r: Record)
    requires r.files.Keys == Elements(ChangedPaths(kind))
    requires r.enabled.Keys == Elements(Units(kind)) && r.active.Keys == Elements(Units(kind))
    ensures Manageable(r)
  {
    assert Units(kind)[0] in r.active.Keys;
  }

  ghost predicate CopyStands(entries: map<string, Option<Copy>>, copies: map<nat, string>, b: Baseline, path: string) {
    && path in entries && path in b.files
    && (entries[path].Some? <==> b.files[path].Some?)
    && (entries[path].Some? ==>
          entries[path].value.file in copies &&
          b.files[path].value == Saved(copies[entries[path].value.file], entries[path].value.mode,
                                       entries[path].value.gid))
  }

  /** The entry of a path names the copy of its own number. */
  ghost predicate CopyAt(entries: map<string, Option<Copy>>, copies: map<nat, string>, b: Baseline, path: string,
                         k: nat) {
    CopyStands(entries, copies, b, path) && (entries[path].Some? ==> entries[path].value.file == k)
  }

  lemma CopiesGrow(entered: map<string, Option<Copy>>, copied: map<nat, string>, entries: map<string, Option<Copy>>,
                   copies: map<nat, string>, b: Baseline, paths: seq<string>, i: nat)
    requires i < |paths| && paths[i] in b.files && forall j, k | 0 <= j < k < |paths| :: paths[j] != paths[k]
    requires forall k: nat | k < i :: CopyAt(entered, copied, b, paths[k], k)
    requires b.files[paths[i]].Some? ==>
               var was := b.files[paths[i]].value;
               copies == copied[i := was.bytes] && entries == entered[paths[i] := Some(Copy(i, was.mode, was.gid))]
    requires b.files[paths[i]].None? ==> copies == copied && entries == entered[paths[i] := None]
    ensures forall k: nat | k < i + 1 :: CopyAt(entries, copies, b, paths[k], k)
  {
    forall k: nat | k < i + 1
      ensures CopyAt(entries, copies, b, paths[k], k)
    {
      if k < i {
        assert CopyAt(entered, copied, b, paths[k], k);
      }
    }
  }

  /** What was written down reads back as it was. */
  lemma RecordStands(r: Record, b: Baseline, paths: seq<string>)
    requires b.files.Keys == Elements(paths) && r.previous == b.previous && r.enabled == b.enabled
             && r.active == b.active
    requires forall p :: p in r.files <==> p in paths
    requires forall k: nat | k < |paths| :: CopyAt(r.files, r.copies, b, paths[k], k)
    ensures Decoded(r) == Some(b) && r.files.Keys == b.files.Keys
  {
    forall p | p in r.files
      ensures CopyStands(r.files, r.copies, b, p)
    {
      var k :| 0 <= k < |paths| && paths[k] == p;
      assert CopyAt(r.files, r.copies, b, paths[k], k);
    }
    assert r.files.Keys == b.files.Keys;
    assert Decoded(r).Some?;
    assert Decoded(r).value.files == b.files;
  }

  lemma ElementsAppend(s: seq<string>, x: string)
    ensures Elements(s + [x]) == Elements(s) + {x}
  {
    assert (s + [x])[|s|] == x;
    forall y | y in s
      ensures y in s + [x]
    {
    }
  }

  function RestoredFiles(files: map<string, Saved>, backups: map<string, Option<Saved>>): map<string, Saved> {
    map p | p in files.Keys + backups.Keys && (p in backups ==> backups[p].Some?) :: if p in backups
        then backups[p].value else files[p]
  }

  lemma OthersKept(a: set<string>, b: set<string>, c: set<string>, names: set<string>, name: string)
    requires b - names == a - names && c - {name} == b - {name} && name in names
    ensures c - names == a - names
  {
    forall u
      ensures u in c - names <==> u in a - names
    {
      assert u in c - {name} <==> u in b - {name};
      assert u in b - names <==> u in a - names;
    }
  }

  lemma AllStarted(a: set<string>, b: set<string>, names: seq<string>)
    requires a <= b && b - Elements(names) == a - Elements(names) && forall k | 0 <= k < |names| :: names[k] in b
    ensures b == a + Elements(names)
  {
    forall u
      ensures u in b <==> u in a + Elements(names)
    {
      assert u in b - Elements(names) <==> u in a - Elements(names);
    }
  }
}
