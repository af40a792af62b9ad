/** Sealing a release tree, and verifying one against its own records and a pinned manifest.

    A tree maps the relative paths of everything but directories to what is there, and knows which paths
    resolve inside it.  SHA-256 and JSON are parameters: texts in, texts out. */
module SealedTree {
  import opened HealthEvents

  datatype Node = File(content: string) | Link(target: string) | Special

  datatype Tree = Tree(nodes: map<string, Node>, inside: set<string>)

  datatype Manifest = Manifest(schema: int, kind: string, releaseId: string, treeSha256: string, sources: string,
                               links: map<string, string>)

  datatype Codec = Codec(hash: string -> string, encode: Manifest -> string, parse: string -> Option<Manifest>,
                         links: map<string, string> -> string)

  const MANIFEST := "manifest.json"
  const SUMS := "SHA256SUMS"
  const METADATA := {MANIFEST, SUMS}

  predicate HexText(s: string, length: nat) {
    |s| == length && forall i | 0 <= i < |s| :: '0' <= s[i] <= '9' || 'a' <= s[i] <= 'f'
  }

  /** Digests are 64 hexadecimal digits, and a printed manifest parses to itself. */
  ghost predicate CodecOk(c: Codec) {
    (forall s :: HexText(c.hash(s), 64)) && (forall m :: c.parse(c.encode(m)) == Some(m))
  }

  /** No two of these texts share a digest. */
  ghost predicate CollisionFree(c: Codec, texts: set<string>) {
    forall a, b | a in texts && b in texts && c.hash(a) == c.hash(b) :: a == b
  }

  // ---- lines and records -----------------------------------------------------------------------

  /** The characters at which a text is split into lines. */
  predicate IsBreak(ch: char) {
    ch == '\n' || ch == '\r' || ch == '\U{0B}' || ch == '\U{0C}' || ch == '\U{1C}' || ch == '\U{1D}' || ch == '\U{1E}'
    || ch == '\U{85}' || ch == '\U{2028}' || ch == '\U{2029}'
  }

  predicate OneLine(s: string) {
    forall i | 0 <= i < |s| :: !IsBreak(s[i])
  }

  function FirstBreak(s: string): (i: nat)
    ensures i <= |s| && OneLine(s[..i]) && (i < |s| ==> IsBreak(s[i]))
  {
    if s == "" || IsBreak(s[0]) then 0 else
      var i := 1 + FirstBreak(s[1..]);
      assert forall k | 0 < k < i :: s[..i][k] == s[1..][..i - 1][k - 1];
      i
  }

  /** What follows the line break; a carriage return and line feed are one break. */
  function AfterBreak(s: string): (rest: string)
    requires s != ""
    ensures |rest| < |s|
  {
    if |s| > 1 && s[0] == '\r' && s[1] == '\n' then s[2..] else s[1..]
  }

  function Lines(s: string): seq<string>
    decreases |s|
  {
    if s == "" then []
    else
      var i := FirstBreak(s);
      if i == |s| then [s] else [s[..i]] + Lines(AfterBreak(s[i..]))
  }

  /** What reading a text file yields: every line end becomes a line feed. */
  function ReadText(s: string): (r: string)
    ensures |r| <= |s|
  {
    if s == "" then ""
    else if s[0] == '\r' then "\n" + ReadText(AfterBreak(s))
    else [s[0]] + ReadText(s[1..])
  }

  predicate NoReturn(s: string) {
    forall i | 0 <= i < |s| :: s[i] != '\r'
  }

  lemma {:induction false} ReadTextKeeps(s: string)
    requires NoReturn(s)
    ensures ReadText(s) == s
  {
    if s != "" {
      assert s[0] != '\r';
      ReadTextKeeps(s[1..]);
      assert [s[0]] + s[1..] == s;
    }
  }

  /** The text with a carriage return before every line feed. */
  function WithReturns(s: string): string {
    if s == "" then "" else (if s[0] == '\n' then "\r\n" else [s[0]]) + WithReturns(s[1..])
  }

  lemma {:induction false} ReturnsAreRead(s: string)
    requires NoReturn(s)
    ensures ReadText(WithReturns(s)) == s
  {
    if s != "" {
      var rest := WithReturns(s[1..]);
      ReturnsAreRead(s[1..]);
      assert s == [s[0]] + s[1..];
      var w := WithReturns(s);
      if s[0] == '\n' {
        assert w == "\r\n" + rest && AfterBreak(w) == rest;
      } else {
        assert s[0] != '\r' && w == [s[0]] + rest && w[1..] == rest;
      }
    }
  }

  /** The text before and after the first two spaces in a row. */
  function SplitRecord(s: string): Option<(string, string)> {
    if |s| < 2 then None
    else if s[0] == ' ' && s[1] == ' ' then Some(("", s[2..]))
    else match SplitRecord(s[1..])
      case None => None
      case Some((a, b)) => Some(([s[0]] + a, b))
  }

  function Record(checksum: string, path: string): string {
    checksum + "  " + path
  }

  lemma {:induction false} RecordSplits(checksum: string, path: string)
    requires forall i | 0 <= i < |checksum| :: checksum[i] != ' '
    ensures SplitRecord(Record(checksum, path)) == Some((checksum, path))
  {
    var s := Record(checksum, path);
    if checksum == "" {
      assert s[2..] == path;
    } else {
      RecordSplits(checksum[1..], path);
      assert s[1..] == Record(checksum[1..], path);
      assert [checksum[0]] + checksum[1..] == checksum;
    }
  }

  lemma {:induction false} FirstBreakAt(s: string, n: nat)
    requires n < |s| && OneLine(s[..n]) && IsBreak(s[n])
    ensures FirstBreak(s) == n
  {
    if n > 0 {
      assert s[0] == s[..n][0];
      assert s[1..][..n - 1] == s[..n][1..];
      FirstBreakAt(s[1..], n - 1);
    }
  }

  lemma FirstLine(line: string, rest: string)
    requires OneLine(line)
    ensures Lines(line + "\n" + rest) == [line] + Lines(rest)
  {
    var s := line + "\n" + rest;
    assert s[..|line|] == line && s[|line|] == '\n' && s[|line|..][1..] == rest;
    FirstBreakAt(s, |line|);
  }

  // ---- seal_tree -------------------------------------------------------------------------------

  predicate Regular(t: Tree, path: string) {
    path in t.nodes && t.nodes[path].File? && path !in METADATA
  }

  /** The records of the regular files, in listing order. */
  function RecordsOf(c: Codec, t: Tree, order: seq<string>): string {
    if order == [] then ""
    else
      var first := if Regular(t, order[0]) then Record(c.hash(t.nodes[order[0]].content), order[0]) + "\n" else "";
      first + RecordsOf(c, t, order[1..])
  }

  function LinksOf(t: Tree): map<string, string> {
    map path | path in t.nodes && t.nodes[path].Link? && path !in METADATA :: t.nodes[path].target
  }

  function ManifestOf(c: Codec, sums: string, links: map<string, string>, kind: string, sources: string): Manifest
    requires |c.hash(sums + c.links(links))| == 64
  {
    var tree := c.hash(sums + c.links(links));
    Manifest(1, kind, tree[..24], tree, sources, links)
  }

  /** The tree with its records and its manifest written. */
  function Sealed(c: Codec, t: Tree, order: seq<string>, kind: string, sources: string): Tree
    requires |c.hash(RecordsOf(c, t, order) + c.links(LinksOf(t)))| == 64
  {
    var sums := RecordsOf(c, t, order);
    Tree(t.nodes[SUMS := File(sums)][MANIFEST := File(c.encode(ManifestOf(c, sums, LinksOf(t), kind, sources)))],
         t.inside + METADATA)
  }

  /** A listing names every path once. */
  predicate Lists(order: seq<string>, t: Tree) {
    && (forall i, j | 0 <= i < j < |order| :: order[i] != order[j])
    && (forall i | 0 <= i < |order| :: order[i] in t.nodes)
    && (forall path | path in t.nodes :: path in order)
  }

  predicate LinksInside(t: Tree) {
    forall path | path in LinksOf(t) :: path in t.inside
  }

  lemma NothingRecorded(c: Codec, t: Tree)
    ensures RecordsOf(c, t, []) == ""
  {
  }

  /** The links found among the paths seen so far, all of them inside. */
  ghost predicate LinksSoFar(t: Tree, seen: seq<string>, links: map<string, string>) {
    && (forall path :: path in links <==> path in seen && path in LinksOf(t))
    && (forall path | path in links :: links[path] == LinksOf(t)[path] && path in t.inside)
  }

  lemma NextLink(t: Tree, order: seq<string>, i: nat, links: map<string, string>)
    requires Lists(order, t) && i < |order| && LinksSoFar(t, order[..i], links)
    ensures order[i] in LinksOf(t) && order[i] in t.inside ==>
              LinksSoFar(t, order[..i + 1], links[order[i] := LinksOf(t)[order[i]]])
    ensures order[i] in LinksOf(t) && order[i] !in t.inside ==> !LinksInside(t)
    ensures order[i] !in LinksOf(t) ==> LinksSoFar(t, order[..i + 1], links)
  {
    assert order[..i + 1] == order[..i] + [order[i]];
  }

  lemma NextRecord(c: Codec, t: Tree, order: seq<string>, i: nat, records: string)
    requires i < |order|
    ensures Regular(t, order[i]) ==>
              var line := Record(c.hash(t.nodes[order[i]].content), order[i]) + "\n";
              (records + line) + RecordsOf(c, t, order[i + 1..]) == records + RecordsOf(c, t, order[i..])
    ensures !Regular(t, order[i]) ==> records + RecordsOf(c, t, order[i + 1..]) == records + RecordsOf(c, t, order[i..])
  {
    assert order[i..][0] == order[i] && order[i..][1..] == order[i + 1..];
    var rest := RecordsOf(c, t, order[i + 1..]);
    if Regular(t, order[i]) {
      var line := Record(c.hash(t.nodes[order[i]].content), order[i]) + "\n";
      assert RecordsOf(c, t, order[i..]) == line + rest;
      assert (records + line) + rest == records + (line + rest);
    } else {
      assert RecordsOf(c, t, order[i..]) == "" + rest == rest;
    }
  }

  /** `seal_tree`: refused exactly when a link escapes. */
  method Seal(c: Codec, t: Tree, order: seq<string>, kind: string, sources: string) returns (r: Option<Tree>)
    requires CodecOk(c) && Lists(order, t)
    ensures r.Some? <==> LinksInside(t)
    ensures r.Some? ==>
              && HexText(c.hash(RecordsOf(c, t, order) + c.links(LinksOf(t))), 64)
              && r.value == Sealed(c, t, order, kind, sources)
  {
    hide RecordsOf, Record;
    assert RecordsOf(c, t, []) == "" by {
      NothingRecorded(c, t);
    }
    var records, links := "", map[];
    for i := 0 to |order|
      invariant records + RecordsOf(c, t, order[i..]) == RecordsOf(c, t, order)
      invariant LinksSoFar(t, order[..i], links)
    {
      var relative := order[i];
      NextRecord(c, t, order, i, records);
      NextLink(t, order, i, links);
      if relative !in METADATA {
        if t.nodes[relative].Link? {
          if relative !in t.inside {
            return None;
          }
          links := links[relative := t.nodes[relative].target];
        } else if t.nodes[relative].File? {
          records := records + (Record(c.hash(t.nodes[relative].content), relative) + "\n");
        }
      }
    }
    assert order[..|order|] == order && order[|order|..] == [] && records + "" == records;
    assert links == LinksOf(t);
    assert HexText(c.hash(records + c.links(links)), 64);
    var manifest := ManifestOf(c, records, links, kind, sources);
    return Some(Tree(t.nodes[SUMS := File(records)][MANIFEST := File(c.encode(manifest))], t.inside + METADATA));
  }

  // ---- verify_tree -----------------------------------------------------------------------------

  /** One record names a regular file of the tree with this content. */
  predicate RecordOk(c: Codec, u: Tree, line: string) {
    var split := SplitRecord(line);
    && split.Some? && HexText(split.value.0, 64)
    && split.value.1 in u.nodes && split.value.1 in u.inside
    && u.nodes[split.value.1].File? && c.hash(u.nodes[split.value.1].content) == split.value.0
  }

  function PathOf(line: string): string {
    var split := SplitRecord(line);
    if split.Some? then split.value.1 else ""
  }

  ghost predicate LinkOk(u: Tree, path: string, target: string) {
    path in u.nodes && u.nodes[path] == Link(target) && path in u.inside
  }

  /** The records are right, name no path twice, and none of the metadata. */
  ghost predicate RecordsOk(c: Codec, u: Tree, lines: seq<string>) {
    && (forall i | 0 <= i < |lines| :: RecordOk(c, u, lines[i]) && PathOf(lines[i]) !in METADATA)
    && (forall i, j | 0 <= i < j < |lines| :: PathOf(lines[i]) != PathOf(lines[j]))
  }

  function PathsOf(lines: seq<string>): set<string> {
    set i | 0 <= i < |lines| :: PathOf(lines[i])
  }

  predicate ManifestOk(m: Manifest) {
    m.schema == 1 && (m.kind == "gateway" || m.kind == "node") && HexText(m.releaseId, 24)
  }

  predicate HasMetadata(u: Tree) {
    MANIFEST in u.nodes && u.nodes[MANIFEST].File? && SUMS in u.nodes && u.nodes[SUMS].File?
  }

  /** The records and links account for exactly what is there, and the manifest seals both. */
  ghost predicate Accounts(c: Codec, u: Tree, sums: string, m: Manifest) {
    && ManifestOk(m) && RecordsOk(c, u, Lines(sums))
    && (forall path | path in m.links :: LinkOk(u, path, m.links[path]))
    && u.nodes.Keys == METADATA + PathsOf(Lines(sums)) + m.links.Keys
    && c.hash(sums + c.links(m.links)) == m.treeSha256 && |m.treeSha256| >= 24 && m.treeSha256[..24] == m.releaseId
  }

  ghost predicate Verified(c: Codec, u: Tree, pin: Option<string>) {
    && HasMetadata(u)
    && (pin.Some? ==> HexText(pin.value, 64) && c.hash(u.nodes[MANIFEST].content) == pin.value)
    && c.parse(u.nodes[MANIFEST].content).Some?
    && Accounts(c, u, ReadText(u.nodes[SUMS].content), c.parse(u.nodes[MANIFEST].content).value)
  }

  // ---- what acceptance means -------------------------------------------------------------------

  /** The line records this path: a regular file that resolves inside the tree, under its own digest. */
  predicate Recorded(c: Codec, u: Tree, path: string, line: string) {
    && path in u.nodes && path !in METADATA && path in u.inside && u.nodes[path].File?
    && HexText(c.hash(u.nodes[path].content), 64)
    && line == c.hash(u.nodes[path].content) + "  " + path
  }

  /** Everything there is recorded or linked as it is, and everything recorded or linked is there, once. */
  ghost predicate Inventoried(c: Codec, u: Tree, lines: seq<string>, links: map<string, string>) {
    && (forall i, j | 0 <= i < j < |lines| :: lines[i] != lines[j])
    && (forall line | line in lines :: exists path :: Recorded(c, u, path, line))
    && (forall path | path in links :: path in u.nodes && u.nodes[path] == Link(links[path]) && path in u.inside)
    && (forall path | path in u.nodes && path !in METADATA ::
          path in links || exists line :: line in lines && Recorded(c, u, path, line))
  }

  /** The tree is what its manifest says. */
  ghost predicate Genuine(c: Codec, u: Tree, m: Manifest) {
    && MANIFEST in u.nodes && u.nodes[MANIFEST].File? && SUMS in u.nodes && u.nodes[SUMS].File?
    && (m.schema == 1 && (m.kind == "gateway" || m.kind == "node"))
    && (|m.releaseId| == 24 && m.releaseId <= m.treeSha256)
    && (forall i | 0 <= i < 24 :: '0' <= m.releaseId[i] <= '9' || 'a' <= m.releaseId[i] <= 'f')
    && c.hash(ReadText(u.nodes[SUMS].content) + c.links(m.links)) == m.treeSha256
    && Inventoried(c, u, Lines(ReadText(u.nodes[SUMS].content)), m.links)
  }

  lemma {:induction false} SplitIsRecord(s: string)
    requires SplitRecord(s).Some?
    ensures s == SplitRecord(s).value.0 + "  " + SplitRecord(s).value.1
  {
    if !(s[0] == ' ' && s[1] == ' ') {
      SplitIsRecord(s[1..]);
      assert s == [s[0]] + s[1..];
    }
  }

  lemma RecordOkIs(c: Codec, u: Tree, line: string)
    ensures RecordOk(c, u, line) && PathOf(line) !in METADATA ==> Recorded(c, u, PathOf(line), line)
    ensures forall path | Recorded(c, u, path, line) :: RecordOk(c, u, line) && PathOf(line) == path
  {
    if RecordOk(c, u, line) {
      SplitIsRecord(line);
    }
    forall path | Recorded(c, u, path, line)
      ensures RecordOk(c, u, line) && PathOf(line) == path
    {
      HexIsOneLine(c.hash(u.nodes[path].content), 64);
      RecordSplits(c.hash(u.nodes[path].content), path);
    }
  }

  lemma AccountsAreInventoried(c: Codec, u: Tree, lines: seq<string>, links: map<string, string>)
    requires HasMetadata(u) && RecordsOk(c, u, lines) && (forall path | path in links :: LinkOk(u, path, links[path]))
    requires u.nodes.Keys == METADATA + PathsOf(lines) + links.Keys
    ensures Inventoried(c, u, lines, links)
  {
    hide RecordOk, Recorded;
    forall i | 0 <= i < |lines|
      ensures Recorded(c, u, PathOf(lines[i]), lines[i])
    {
      RecordOkIs(c, u, lines[i]);
    }
    forall path | path in links
      ensures path in u.nodes && u.nodes[path] == Link(links[path]) && path in u.inside
    {
      assert LinkOk(u, path, links[path]);
    }
    forall path | path in u.nodes && path !in METADATA && path !in links
      ensures exists line :: line in lines && Recorded(c, u, path, line)
    {
      var i :| 0 <= i < |lines| && PathOf(lines[i]) == path;
      assert lines[i] in lines;
    }
  }

  lemma InventoriedAccounts(c: Codec, u: Tree, lines: seq<string>, links: map<string, string>)
    requires HasMetadata(u) && Inventoried(c, u, lines, links)
    ensures RecordsOk(c, u, lines) && (forall path | path in links :: LinkOk(u, path, links[path]))
    ensures u.nodes.Keys == METADATA + PathsOf(lines) + links.Keys
  {
    hide RecordOk, SplitRecord, PathOf;
    forall i | 0 <= i < |lines|
      ensures RecordOk(c, u, lines[i]) && Recorded(c, u, PathOf(lines[i]), lines[i])
    {
      assert lines[i] in lines;
      var path :| Recorded(c, u, path, lines[i]);
      RecordOkIs(c, u, lines[i]);
    }
    forall i, j | 0 <= i < j < |lines|
      ensures PathOf(lines[i]) != PathOf(lines[j])
    {
      assert lines[i] != lines[j];
    }
    forall path | path in u.nodes && path !in METADATA && path !in links
      ensures path in PathsOf(lines)
    {
      var line :| line in lines && Recorded(c, u, path, line);
      RecordOkIs(c, u, line);
      var i :| 0 <= i < |lines| && lines[i] == line;
    }
    forall path | path in PathsOf(lines)
      ensures path in u.nodes
    {
      var i :| 0 <= i < |lines| && PathOf(lines[i]) == path;
    }
  }

  /** Verified, with or without a pin, means genuine. */
  lemma VerifiedIsGenuine(c: Codec, u: Tree, m: Manifest)
    requires HasMetadata(u)
    ensures Accounts(c, u, ReadText(u.nodes[SUMS].content), m) <==> Genuine(c, u, m)
  {
    hide ReadText, Lines, RecordsOk, LinkOk, PathsOf, Inventoried;
    var lines := Lines(ReadText(u.nodes[SUMS].content));
    if Accounts(c, u, ReadText(u.nodes[SUMS].content), m) {
      AccountsAreInventoried(c, u, lines, m.links);
    }
    if Genuine(c, u, m) {
      InventoriedAccounts(c, u, lines, m.links);
      assert m.releaseId == m.treeSha256[..24];
    }
  }

  method CheckRecords(c: Codec, u: Tree, lines: seq<string>) returns (ok: bool, expected: set<string>)
    ensures ok <==> RecordsOk(c, u, lines)
    ensures ok ==> expected == METADATA + PathsOf(lines)
  {
    expected := METADATA;
    for i := 0 to |lines|
      invariant RecordsOk(c, u, lines[..i]) && expected == METADATA + PathsOf(lines[..i])
    {
      var more := lines[..i + 1];
      assert more == lines[..i] + [lines[i]];
      var split := SplitRecord(lines[i]);
      if split.None? || split.value.1 in expected || !RecordOk(c, u, lines[i]) {
        RecordRefused(c, u, lines, i);
        return false, expected;
      }
      PathsGrow(lines[..i], lines[i]);
      expected := expected + {split.value.1};
    }
    assert lines[..|lines|] == lines;
    return true, expected;
  }

  lemma RecordRefused(c: Codec, u: Tree, lines: seq<string>, i: nat)
    requires i < |lines| && (PathOf(lines[i]) in METADATA + PathsOf(lines[..i]) || !RecordOk(c, u, lines[i]))
    ensures !RecordsOk(c, u, lines)
  {
    if PathOf(lines[i]) in PathsOf(lines[..i]) {
      var j :| 0 <= j < i && PathOf(lines[..i][j]) == PathOf(lines[i]);
      assert PathOf(lines[j]) == PathOf(lines[i]);
    }
  }

  lemma PathsGrow(lines: seq<string>, line: string)
    ensures PathsOf(lines + [line]) == PathsOf(lines) + {PathOf(line)}
  {
    var all := lines + [line];
    assert all[|lines|] == line;
    forall path | path in PathsOf(lines)
      ensures path in PathsOf(all)
    {
      var i :| 0 <= i < |lines| && PathOf(lines[i]) == path;
      assert all[i] == lines[i];
    }
  }

  method CheckLinks(u: Tree, links: map<string, string>) returns (ok: bool)
    ensures ok <==> forall path | path in links :: LinkOk(u, path, links[path])
  {
    var todo := links.Keys;
    while todo != {}
      invariant todo <= links.Keys && forall path | path in links && path !in todo :: LinkOk(u, path, links[path])
      decreases todo
    {
      var path :| path in todo;
      todo := todo - {path};
      if path !in u.nodes || u.nodes[path] != Link(links[path]) || path !in u.inside {
        assert !LinkOk(u, path, links[path]);
        return false;
      }
    }
    return true;
  }

  /** `verify_tree` accepts exactly the verified trees: those whose manifest has the pinned digest, if one is
      given, and which are, pinned or not, what their manifest says. */
  method VerifyTree(c: Codec, u: Tree, pin: Option<string>) returns (r: Option<Manifest>)
    ensures r.Some? <==> Verified(c, u, pin)
    ensures r.Some? <==>
              && MANIFEST in u.nodes && u.nodes[MANIFEST].File?
              && (pin.Some? ==> HexText(pin.value, 64) && c.hash(u.nodes[MANIFEST].content) == pin.value)
              && c.parse(u.nodes[MANIFEST].content).Some? && Genuine(c, u, c.parse(u.nodes[MANIFEST].content).value)
    ensures r.Some? ==> c.parse(u.nodes[MANIFEST].content) == r
  {
    hide RecordsOk, LinkOk, Genuine, ReadText, Lines;
    if !HasMetadata(u) {
      GenuineHasMetadata(c, u);
      return None;
    }
    if c.parse(u.nodes[MANIFEST].content).Some? {
      VerifiedIsGenuine(c, u, c.parse(u.nodes[MANIFEST].content).value);
    }
    if pin.Some? && (!HexText(pin.value, 64) || c.hash(u.nodes[MANIFEST].content) != pin.value) {
      return None;
    }
    var parsed := c.parse(u.nodes[MANIFEST].content);
    if parsed.None? || !ManifestOk(parsed.value) {
      return None;
    }
    var manifest, sums := parsed.value, ReadText(u.nodes[SUMS].content);
    var ok, expected := CheckRecords(c, u, Lines(sums));
    if !ok {
      return None;
    }
    var linked := CheckLinks(u, manifest.links);
    if !linked || u.nodes.Keys != expected + manifest.links.Keys {
      return None;
    }
    var calculated := c.hash(sums + c.links(manifest.links));
    if calculated != manifest.treeSha256 || |calculated| < 24 || calculated[..24] != manifest.releaseId {
      return None;
    }
    return parsed;
  }

  lemma GenuineHasMetadata(c: Codec, u: Tree)
    requires !HasMetadata(u)
    ensures forall m :: !Genuine(c, u, m)
  {
  }

  // ---- every sealed tree verifies --------------------------------------------------------------

  /** A tree of regular files and links that resolve inside it, with one-line names. */
  ghost predicate Sealable(t: Tree) {
    && (forall path | path in t.nodes :: OneLine(path) && path in t.inside && !t.nodes[path].Special?)
    && (forall path | path in t.nodes && path in METADATA :: t.nodes[path].File?)
  }

  lemma HexIsOneLine(s: string, n: nat)
    requires HexText(s, n)
    ensures OneLine(s) && forall i | 0 <= i < |s| :: s[i] != ' '
  {
  }

  function RegularPaths(t: Tree, order: seq<string>): seq<string> {
    if order == [] then [] else (if Regular(t, order[0]) then [order[0]] else []) + RegularPaths(t, order[1..])
  }

  lemma {:induction false} RegularPathsAre(t: Tree, order: seq<string>)
    requires forall i, j | 0 <= i < j < |order| :: order[i] != order[j]
    ensures var paths := RegularPaths(t, order);
            && (forall path :: path in paths <==> path in order && Regular(t, path))
            && (forall i, j | 0 <= i < j < |paths| :: paths[i] != paths[j])
  {
    if order != [] {
      RegularPathsAre(t, order[1..]);
      assert order == [order[0]] + order[1..];
    }
  }

  function LineOf(c: Codec, t: Tree, path: string): string {
    Record(if Regular(t, path) then c.hash(t.nodes[path].content) else "", path)
  }

  lemma LineIsOneLine(c: Codec, t: Tree, path: string)
    requires CodecOk(c) && Sealable(t) && Regular(t, path)
    ensures OneLine(LineOf(c, t, path))
  {
    HexIsOneLine(c.hash(t.nodes[path].content), 64);
  }

  /** The text of the records splits into one record per regular file, in order. */
  lemma {:induction false} RecordLines(c: Codec, t: Tree, order: seq<string>)
    requires CodecOk(c) && Sealable(t)
    ensures |Lines(RecordsOf(c, t, order))| == |RegularPaths(t, order)|
    ensures forall i | 0 <= i < |RegularPaths(t, order)| ::
              Lines(RecordsOf(c, t, order))[i] == LineOf(c, t, RegularPaths(t, order)[i])
  {
    hide CodecOk, Sealable, OneLine, Record;
    if order == [] {
      assert Lines("") == [];
    } else {
      RecordLines(c, t, order[1..]);
      var rest := RecordsOf(c, t, order[1..]);
      hide Lines;
      if Regular(t, order[0]) {
        var line := LineOf(c, t, order[0]);
        LineIsOneLine(c, t, order[0]);
        assert RecordsOf(c, t, order) == line + "\n" + rest;
        FirstLine(line, rest);
      } else {
        assert RecordsOf(c, t, order) == rest;
      }
    }
  }

  lemma LineIsOk(c: Codec, t: Tree, u: Tree, path: string)
    requires CodecOk(c) && Sealable(t) && Regular(t, path)
    requires path in u.nodes && path in u.inside && u.nodes[path] == t.nodes[path]
    ensures RecordOk(c, u, LineOf(c, t, path)) && PathOf(LineOf(c, t, path)) == path
  {
    HexIsOneLine(c.hash(t.nodes[path].content), 64);
    RecordSplits(c.hash(t.nodes[path].content), path);
  }

  lemma SealedRecordsAreOk(c: Codec, t: Tree, order: seq<string>, u: Tree)
    requires CodecOk(c) && Sealable(t) && Lists(order, t)
    requires forall path | Regular(t, path) :: path in u.nodes && path in u.inside && u.nodes[path] == t.nodes[path]
    ensures var lines := Lines(RecordsOf(c, t, order));
            RecordsOk(c, u, lines) && PathsOf(lines) == set path | path in t.nodes && Regular(t, path)
  {
    hide CodecOk, Sealable, RecordOk, Lines, RecordsOf, RegularPaths, LineOf;
    var lines, paths := Lines(RecordsOf(c, t, order)), RegularPaths(t, order);
    RecordLines(c, t, order);
    RegularPathsAre(t, order);
    forall i | 0 <= i < |lines|
      ensures RecordOk(c, u, lines[i]) && PathOf(lines[i]) == paths[i] && paths[i] !in METADATA
    {
      assert paths[i] in paths;
      LineIsOk(c, t, u, paths[i]);
    }
    forall path | path in t.nodes && Regular(t, path)
      ensures path in PathsOf(lines)
    {
      assert path in order && path in paths;
      var i :| 0 <= i < |paths| && paths[i] == path;
      assert PathOf(lines[i]) == path;
    }
    forall path | path in PathsOf(lines)
      ensures path in t.nodes && Regular(t, path)
    {
      var i :| 0 <= i < |lines| && PathOf(lines[i]) == path;
      assert paths[i] in paths;
    }
  }

  /** Sealed records have no carriage return, so reading them back changes nothing. */
  lemma {:induction false} RecordsReadBack(c: Codec, t: Tree, order: seq<string>)
    requires CodecOk(c) && Sealable(t)
    ensures NoReturn(RecordsOf(c, t, order))
  {
    if order != [] {
      RecordsReadBack(c, t, order[1..]);
      if Regular(t, order[0]) {
        var line := LineOf(c, t, order[0]);
        LineIsOneLine(c, t, order[0]);
        hide CodecOk, Sealable, Record;
        assert RecordsOf(c, t, order) == line + "\n" + RecordsOf(c, t, order[1..]);
      } else {
        assert RecordsOf(c, t, order) == "" + RecordsOf(c, t, order[1..]);
      }
    }
  }

  lemma SealedManifestIsOk(c: Codec, sums: string, links: map<string, string>, kind: string, sources: string)
    requires CodecOk(c) && (kind == "gateway" || kind == "node")
    ensures HexText(c.hash(sums + c.links(links)), 64)
    ensures var m := ManifestOf(c, sums, links, kind, sources);
            && ManifestOk(m) && m.links == links && c.parse(c.encode(m)) == Some(m) && HexText(c.hash(c.encode(m)), 64)
            && c.hash(sums + c.links(links)) == m.treeSha256 && |m.treeSha256| >= 24
               && m.treeSha256[..24] == m.releaseId
  {
    assert HexText(c.hash(sums + c.links(links)), 64);
  }

  /** What the seal leaves is what its records and links list. */
  lemma SealedPaths(t: Tree, u: Tree)
    requires u.nodes.Keys == t.nodes.Keys + METADATA && Sealable(t)
    ensures u.nodes.Keys == METADATA + (set path | path in t.nodes && Regular(t, path)) + LinksOf(t).Keys
  {
  }

  /** `verify_tree` accepts every sealed tree, without a pin and under its own manifest's digest. */
  lemma SealedTreesVerify(c: Codec, t: Tree, order: seq<string>, kind: string, sources: string)
    requires CodecOk(c) && Sealable(t) && Lists(order, t) && (kind == "gateway" || kind == "node")
    ensures HexText(c.hash(RecordsOf(c, t, order) + c.links(LinksOf(t))), 64)
    ensures var u := Sealed(c, t, order, kind, sources);
            Verified(c, u, None) && Verified(c, u, Some(c.hash(u.nodes[MANIFEST].content)))
  {
    var sums := RecordsOf(c, t, order);
    SealedManifestIsOk(c, sums, LinksOf(t), kind, sources);
    var u := Sealed(c, t, order, kind, sources);
    var m := ManifestOf(c, sums, LinksOf(t), kind, sources);
    SealedRecordsAreOk(c, t, order, u);
    RecordsReadBack(c, t, order);
    ReadTextKeeps(sums);
    SealedPaths(t, u);
    assert forall path | path in m.links :: LinkOk(u, path, m.links[path]);
    hide ManifestOf, ManifestOk, CodecOk, Sealable, RecordsOk, RecordsOf, Lines, PathsOf, Lists, LinksOf, HexText,
        LinkOk;
    assert Accounts(c, u, sums, m);
  }

  // ---- a pinned manifest fixes the tree --------------------------------------------------------

  /** The texts whose digests matter: contents, manifests and what the trees are identified by. */
  function Texts(c: Codec, t: Tree, links: map<string, string>): set<string> {
    (set path | path in t.nodes && t.nodes[path].File? :: t.nodes[path].content)
    + (if HasMetadata(t) then {ReadText(t.nodes[SUMS].content) + c.links(links)} else {})
  }

  /** A record that verifies names the file it was sealed from. */
  lemma RecordedFileIsSame(c: Codec, s: Tree, u: Tree, line: string, texts: set<string>)
    requires CollisionFree(c, texts) && RecordOk(c, s, line) && RecordOk(c, u, line)
    requires s.nodes[PathOf(line)].content in texts && u.nodes[PathOf(line)].content in texts
    ensures u.nodes[PathOf(line)] == s.nodes[PathOf(line)]
  {
  }

  /** The same files, contents and links, the same bytes of the manifest, and the same records except for
      how their lines end. */
  ghost predicate SameButLineEnds(s: Tree, u: Tree) {
    && HasMetadata(s) && HasMetadata(u)
    && u.nodes.Keys == s.nodes.Keys
    && (forall path | path in s.nodes && path != SUMS :: u.nodes[path] == s.nodes[path])
    && ReadText(u.nodes[SUMS].content) == ReadText(s.nodes[SUMS].content)
  }

  /** Two trees verified under one pin are the same but for the line ends of their records. */
  lemma PinFixesTree(c: Codec, s: Tree, u: Tree, pin: string)
    requires Verified(c, s, Some(pin)) && Verified(c, u, Some(pin))
    requires var links := c.parse(s.nodes[MANIFEST].content).value.links;
             CollisionFree(c, Texts(c, s, links) + Texts(c, u, links))
    ensures SameButLineEnds(s, u)
  {
    hide CollisionFree, RecordOk, ReadText;
    var m := c.parse(s.nodes[MANIFEST].content).value;
    var texts := Texts(c, s, m.links) + Texts(c, u, m.links);
    SameDigestSameText(c, texts, s.nodes[MANIFEST].content, u.nodes[MANIFEST].content);
    var sums, other := ReadText(s.nodes[SUMS].content), ReadText(u.nodes[SUMS].content);
    SameDigestSameText(c, texts, sums + c.links(m.links), other + c.links(m.links));
    SameFront(sums, other, c.links(m.links));
    var lines := Lines(sums);
    forall path | path in s.nodes && path != SUMS
      ensures u.nodes[path] == s.nodes[path]
    {
      if path in PathsOf(lines) {
        var i :| 0 <= i < |lines| && PathOf(lines[i]) == path;
        RecordedIsFile(c, s, lines[i]);
        RecordedIsFile(c, u, lines[i]);
        RecordedFileIsSame(c, s, u, lines[i], texts);
      } else if path in m.links {
        assert LinkOk(s, path, m.links[path]) && LinkOk(u, path, m.links[path]);
      }
    }
  }

  /** Printed links never end in another map's print: what comes before them can be told apart. */
  ghost predicate LinksApart(c: Codec) {
    forall a: string, b: string, l: map<string, string>, m: map<string, string> ::
      a + c.links(l) == b + c.links(m) ==> a == b && l == m
  }

  /** Without any pin, the tree digest in the manifest alone fixes everything but the metadata. */
  lemma DigestFixesTree(c: Codec, s: Tree, u: Tree, m: Manifest, n: Manifest)
    requires Genuine(c, s, m) && Genuine(c, u, n) && m.treeSha256 == n.treeSha256 && LinksApart(c)
    requires CollisionFree(c, Texts(c, s, m.links) + Texts(c, u, n.links))
    ensures m.links == n.links && ReadText(s.nodes[SUMS].content) == ReadText(u.nodes[SUMS].content)
    ensures forall path | path !in METADATA :: path in u.nodes <==> path in s.nodes
    ensures forall path | path in s.nodes && path !in METADATA :: u.nodes[path] == s.nodes[path]
  {
    hide CollisionFree, Lines, HexText;
    var texts := Texts(c, s, m.links) + Texts(c, u, n.links);
    var sums, other := ReadText(s.nodes[SUMS].content), ReadText(u.nodes[SUMS].content);
    hide ReadText;
    SameDigestSameText(c, texts, sums + c.links(m.links), other + c.links(n.links));
    SameInventory(c, s, u, Lines(sums), m.links, texts);
    SameInventory(c, u, s, Lines(sums), m.links, texts);
  }

  /** What the same inventory says of one tree it says of the other. */
  lemma SameInventory(c: Codec, s: Tree, u: Tree, lines: seq<string>, links: map<string, string>, texts: set<string>)
    requires Inventoried(c, s, lines, links) && Inventoried(c, u, lines, links) && CollisionFree(c, texts)
    requires forall path | path in s.nodes && s.nodes[path].File? :: s.nodes[path].content in texts
    requires forall path | path in u.nodes && u.nodes[path].File? :: u.nodes[path].content in texts
    ensures forall path | path in s.nodes && path !in METADATA :: path in u.nodes && u.nodes[path] == s.nodes[path]
  {
    hide CollisionFree, HexText;
    forall path | path in s.nodes && path !in METADATA && path !in links
      ensures path in u.nodes && u.nodes[path] == s.nodes[path]
    {
      var line :| line in lines && Recorded(c, s, path, line);
      var there :| Recorded(c, u, there, line);
      RecordOkIs(c, s, line);
      RecordOkIs(c, u, line);
      assert there == path;
      assert line[..64] == c.hash(s.nodes[path].content) && line[..64] == c.hash(u.nodes[path].content) by {
        DigestFirst(c.hash(s.nodes[path].content), path);
        DigestFirst(c.hash(u.nodes[path].content), path);
      }
      SameDigestSameText(c, texts, s.nodes[path].content, u.nodes[path].content);
    }
  }

  lemma DigestFirst(digest: string, path: string)
    ensures HexText(digest, 64) ==> |digest + "  " + path| >= 64 && (digest + "  " + path)[..64] == digest
  {
  }

  /** And how the lines of the records end makes no difference to verification. */
  lemma LineEndsDoNotMatter(c: Codec, s: Tree, u: Tree, pin: Option<string>)
    requires SameButLineEnds(s, u) && u.inside == s.inside
    ensures Verified(c, s, pin) <==> Verified(c, u, pin)
  {
    if c.parse(s.nodes[MANIFEST].content).Some? {
      var m := c.parse(s.nodes[MANIFEST].content).value;
      var sums := ReadText(s.nodes[SUMS].content);
      hide Accounts, ReadText;
      if Accounts(c, s, sums, m) {
        SameAccounts(c, s, u, sums, m);
      }
      if Accounts(c, u, sums, m) {
        SameAccounts(c, u, s, sums, m);
      }
    }
  }

  lemma SameAccounts(c: Codec, s: Tree, u: Tree, sums: string, m: Manifest)
    requires SameButLineEnds(s, u) && u.inside == s.inside && Accounts(c, s, sums, m)
    ensures Accounts(c, u, sums, m)
  {
    hide ReadText, Lines, SplitRecord, PathsOf, ManifestOk;
    var lines := Lines(sums);
    forall i | 0 <= i < |lines|
      ensures RecordOk(c, u, lines[i])
    {
      assert RecordOk(c, s, lines[i]) && PathOf(lines[i]) !in METADATA;
    }
    forall path | path in m.links
      ensures LinkOk(u, path, m.links[path])
    {
      assert LinkOk(s, path, m.links[path]);
    }
  }

  lemma RecordedIsFile(c: Codec, u: Tree, line: string)
    requires RecordOk(c, u, line)
    ensures PathOf(line) in u.nodes && u.nodes[PathOf(line)].File?
  {
  }

  lemma SameDigestSameText(c: Codec, texts: set<string>, a: string, b: string)
    requires CollisionFree(c, texts) && a in texts && b in texts && c.hash(a) == c.hash(b)
    ensures a == b
  {
  }

  lemma SameFront(a: string, b: string, tail: string)
    requires a + tail == b + tail
    ensures a == b
  {
    assert |a| == |b|;
    assert a == (a + tail)[..|a|] && b == (b + tail)[..|b|];
  }

  /** Any tree accepted under the digest of the manifest sealed from `t` has exactly the files, contents
      and links of `t`, the sealed manifest, and the sealed records but for how their lines end. */
  lemma PinnedTreeIsTheSealedOne(c: Codec, t: Tree, order: seq<string>, kind: string, sources: string, u: Tree)
    requires CodecOk(c) && Sealable(t) && Lists(order, t) && (kind == "gateway" || kind == "node")
    requires |c.hash(RecordsOf(c, t, order) + c.links(LinksOf(t)))| == 64
    requires var s := Sealed(c, t, order, kind, sources);
             && Verified(c, u, Some(c.hash(s.nodes[MANIFEST].content)))
             && CollisionFree(c, Texts(c, s, LinksOf(t)) + Texts(c, u, LinksOf(t)))
    ensures forall path | path !in METADATA :: path in u.nodes <==> path in t.nodes
    ensures forall path | path in t.nodes && path !in METADATA :: u.nodes[path] == t.nodes[path]
    ensures var s := Sealed(c, t, order, kind, sources);
            && HasMetadata(u) && u.nodes[MANIFEST] == s.nodes[MANIFEST]
            && ReadText(u.nodes[SUMS].content) == s.nodes[SUMS].content
  {
    hide Verified, CollisionFree, Sealable, ReadText;
    var s := Sealed(c, t, order, kind, sources);
    SealedTreesVerify(c, t, order, kind, sources);
    RecordsReadBack(c, t, order);
    ReadTextKeeps(RecordsOf(c, t, order));
    assert c.parse(s.nodes[MANIFEST].content).value.links == LinksOf(t);
    PinFixesTree(c, s, u, c.hash(s.nodes[MANIFEST].content));
  }

  /** No more than that: the sealed tree with carriage returns written into its records is another tree,
      and it is accepted under the same pin. */
  lemma LineEndsMayDiffer(c: Codec, t: Tree, order: seq<string>, kind: string, sources: string)
    requires CodecOk(c) && Sealable(t) && Lists(order, t) && (kind == "gateway" || kind == "node")
    requires RecordsOf(c, t, order) != ""
    ensures HexText(c.hash(RecordsOf(c, t, order) + c.links(LinksOf(t))), 64)
    ensures var s := Sealed(c, t, order, kind, sources);
            var u := Tree(s.nodes[SUMS := File(WithReturns(s.nodes[SUMS].content))], s.inside);
            u.nodes != s.nodes && Verified(c, u, Some(c.hash(s.nodes[MANIFEST].content)))
  {
    hide Verified, Sealable, ReadText, CodecOk, Lists;
    SealedTreesVerify(c, t, order, kind, sources);
    var s := Sealed(c, t, order, kind, sources);
    var sums := RecordsOf(c, t, order);
    RecordsReadBack(c, t, order);
    ReadTextKeeps(sums);
    ReturnsAreRead(sums);
    RecordsEndLines(c, t, order);
    ReturnsLengthen(sums);
    var u := Tree(s.nodes[SUMS := File(WithReturns(sums))], s.inside);
    assert u.nodes[SUMS] != s.nodes[SUMS];
    LineEndsDoNotMatter(c, s, u, Some(c.hash(s.nodes[MANIFEST].content)));
  }

  lemma {:induction false} RecordsEndLines(c: Codec, t: Tree, order: seq<string>)
    requires RecordsOf(c, t, order) != ""
    ensures '\n' in RecordsOf(c, t, order)
  {
    if Regular(t, order[0]) {
      var line := Record(c.hash(t.nodes[order[0]].content), order[0]);
      assert RecordsOf(c, t, order)[|line|] == '\n';
    } else {
      assert RecordsOf(c, t, order) == "" + RecordsOf(c, t, order[1..]);
      RecordsEndLines(c, t, order[1..]);
    }
  }

  lemma {:induction false} ReturnsLengthen(s: string)
    ensures |WithReturns(s)| >= |s| && ('\n' in s ==> |WithReturns(s)| > |s|)
  {
    if s != "" {
      ReturnsLengthen(s[1..]);
      assert s == [s[0]] + s[1..];
    }
  }
}
