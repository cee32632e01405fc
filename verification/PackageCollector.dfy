/** Collecting a built package into its version directory: which files a collection writes, in which
    order, and what is left behind when it is cut short. */
module PackageCollector {
  import opened PathOrder
  import opened ChecksumText
  import opened Wrappers

  type Contents = seq<int>

  datatype Platform = Linux | Macos

  datatype Provenance = Provenance(
    product: string, platform: Platform, architecture: string, targetOs: string,
    size: nat, sha256: string, commit: string, submodules: map<string, string>, validation: string)

  type Record = Keyed<Provenance>

  datatype Manifest = Manifest(schema: int, version: string, branch: string, channel: string, packages: seq<Record>)

  /** One version directory and the files outside it; packages and sidecars by relative path. */
  datatype Tree = Tree(
    packages: map<string, Contents>,
    outside: map<string, Contents>,
    sidecars: map<string, string>,
    manifest: Option<Manifest>,
    sums: Option<string>)

  /** Where the supplied file lies: outside, or under a platform of this very directory. */
  datatype Place = Outside(file: string) | Shelf(platform: Platform)

  /** `copied` is what the file copy produces; `expected` is empty when no checksum was asked for. */
  datatype Request = Request(
    version: string, branch: string, product: string, platform: Platform, architecture: string,
    targetOs: string, name: string, source: Place, commit: string, submodules: map<string, string>,
    validation: string, expected: string, copied: Contents, move: bool)

  datatype Write =
    | PutPackage(path: string, contents: Contents)
    | PutSidecar(path: string, text: string)
    | PutManifest(manifest: Manifest)
    | PutSums(text: string)
    | RemoveSource(path: string, inside: bool)

  datatype Error = Missing | Extension | Checksum | OtherManifest | Conflict | DifferentPackage | BadCopy

  datatype Plan = Writes(writes: seq<Write>) | Refused(error: Error)

  type Hash = Contents -> string

  // ---------------------------------------------------------------- names and texts

  function Folder(p: Platform): string { if p == Linux then "linux/" else "macos/" }

  function PathOf(p: Platform, name: string): string { Folder(p) + name }

  predicate EndsWith(name: string, suffix: string) { |suffix| < |name| && name[|name| - |suffix|..] == suffix }

  predicate Suited(p: Platform, name: string) {
    if p == Linux then EndsWith(name, ".deb") || EndsWith(name, ".rpm")
    else EndsWith(name, ".pkg") || EndsWith(name, ".dmg")
  }

  function Sidecar(sha256: string, name: string): string { sha256 + "  " + name + "\n" }

  function Sums(packages: seq<Record>): string {
    if packages == [] then []
    else packages[0].value.sha256 + "  " + packages[0].path + "\n" + Sums(packages[1..])
  }

  // ---------------------------------------------------------------- one collection

  function Destination(r: Request): string { PathOf(r.platform, r.name) }

  function SourceOf(t: Tree, r: Request): Option<Contents> {
    match r.source
    case Outside(f) => if f in t.outside then Some(t.outside[f]) else None
    case Shelf(p) => if PathOf(p, r.name) in t.packages then Some(t.packages[PathOf(p, r.name)]) else None
  }

  function RecordOf(r: Request, contents: Contents, hash: Hash): Record {
    Keyed(Destination(r),
          Provenance(r.product, r.platform, r.architecture, r.targetOs, |contents|, hash(contents),
                     r.commit, r.submodules, r.validation))
  }

  function Current(t: Tree, r: Request): Manifest {
    if t.manifest.Some? then t.manifest.value
    else Manifest(1, r.version, r.branch, if r.branch == "main" then "releases" else "candidates", [])
  }

  function Find(s: seq<Record>, path: string): Option<Record> {
    if s == [] then None else if s[0].path == path then Some(s[0]) else Find(s[1..], path)
  }

  /** The list after append-unless-present and sort. */
  function Listed(s: seq<Record>, record: Record): seq<Record> {
    Sort(if Find(s, record.path).None? then s + [record] else s)
  }

  /** All that is checked under the lock, then the writes in order; every one of them is atomic. */
  function PlanOf(t: Tree, r: Request, hash: Hash): Plan {
    var source := SourceOf(t, r);
    if source.None? then Refused(Missing)
    else if !Suited(r.platform, r.name) then Refused(Extension)
    else
      var record := RecordOf(r, source.value, hash);
      var checksum := record.value.sha256;
      if r.expected != [] && r.expected != checksum then Refused(Checksum)
      else
        var m := Current(t, r);
        if (m.schema, m.version, m.branch) != (1, r.version, r.branch) then Refused(OtherManifest)
        else if Find(m.packages, record.path).Some? && Find(m.packages, record.path).value != record then Refused(Conflict)
        else if record.path in t.packages && hash(t.packages[record.path]) != checksum then Refused(DifferentPackage)
        else if record.path !in t.packages && hash(r.copied) != checksum then Refused(BadCopy)
        else Writes(WritesOf(record.path in t.packages, r, record, m))
  }

  function WritesOf(present: bool, r: Request, record: Record, m: Manifest): seq<Write> {
    var packages := Listed(m.packages, record);
    (if present then [] else [PutPackage(record.path, r.copied)])
    + [PutSidecar(record.path, Sidecar(record.value.sha256, r.name)),
       PutManifest(m.(packages := packages)),
       PutSums(Sums(packages))]
    + Removal(r)
  }

  function Removal(r: Request): seq<Write> {
    if !r.move || r.source == Shelf(r.platform) then []
    else if r.source.Outside? then [RemoveSource(r.source.file, false)]
    else [RemoveSource(PathOf(r.source.platform, r.name), true)]
  }

  function Do(t: Tree, w: Write): Tree {
    match w
    case PutPackage(path, contents) => t.(packages := t.packages[path := contents])
    case PutSidecar(path, text) => t.(sidecars := t.sidecars[path := text])
    case PutManifest(m) => t.(manifest := Some(m))
    case PutSums(text) => t.(sums := Some(text))
    case RemoveSource(path, inside) =>
      if inside then t.(packages := t.packages - {path}) else t.(outside := t.outside - {path})
  }

  /** The tree once the first k writes are done: the crash points of a collection. */
  function After(t: Tree, writes: seq<Write>, k: nat): Tree
    requires k <= |writes|
  {
    if k == 0 then t else Do(After(t, writes, k - 1), writes[k - 1])
  }

  function Outcome(t: Tree, r: Request, hash: Hash): Tree {
    var p := PlanOf(t, r, hash);
    if p.Writes? then After(t, p.writes, |p.writes|) else t
  }

  // ---------------------------------------------------------------- the invariant

  /** A record sits under its own platform, in a file of a fitting kind. */
  ghost predicate Shelved(record: Record) {
    exists name :: record.path == PathOf(record.value.platform, name) && Suited(record.value.platform, name)
  }

  ghost predicate Backed(record: Record, t: Tree, hash: Hash) {
    Shelved(record) && record.path in t.packages && hash(t.packages[record.path]) == record.value.sha256
  }

  /** Sorted, duplicate-free, and every entry's package is there with the recorded digest. */
  ghost predicate Sound(t: Tree, hash: Hash) {
    t.manifest.Some? ==>
      && Strict(t.manifest.value.packages)
      && forall i | 0 <= i < |t.manifest.value.packages| :: Backed(t.manifest.value.packages[i], t, hash)
  }

  // ---------------------------------------------------------------- the list of records

  lemma {:induction false} FindFinds(s: seq<Record>, path: string)
    ensures Find(s, path).None? <==> forall i | 0 <= i < |s| :: s[i].path != path
    ensures Find(s, path).Some? ==> Find(s, path).value in s && Find(s, path).value.path == path
  {
    if s != [] {
      FindFinds(s[1..], path);
      assert s[0].path != path ==> forall i | 0 < i < |s| :: s[i] == s[1..][i - 1];
    }
  }

  lemma SortedMembers(s: seq<Record>, x: Record)
    ensures x in Sort(s) <==> x in s
  {
    SortPermutes(s);
    assert x in Sort(s) <==> x in multiset(Sort(s));
    assert x in s <==> x in multiset(s);
  }

  /** Listing keeps the order strict and adds exactly the record. */
  lemma ListedAdds(s: seq<Record>, record: Record)
    requires Strict(s) && (Find(s, record.path).None? || Find(s, record.path).value == record)
    ensures Strict(Listed(s, record))
    ensures forall x :: x in Listed(s, record) <==> x in s || x == record
  {
    FindFinds(s, record.path);
    StrictIsDistinct(s);
    var grown := if Find(s, record.path).None? then s + [record] else s;
    SortIsStrict(grown);
    forall x ensures x in Listed(s, record) <==> x in s || x == record { SortedMembers(grown, x); }
  }

  /** Listing twice changes nothing. */
  lemma ListedTwice(s: seq<Record>, record: Record)
    requires Strict(s) && (Find(s, record.path).None? || Find(s, record.path).value == record)
    ensures Find(Listed(s, record), record.path) == Some(record)
    ensures Listed(Listed(s, record), record) == Listed(s, record)
  {
    var t := Listed(s, record);
    ListedAdds(s, record);
    FoundIs(t, record);
    ListedAdds(t, record);
    StrictIsUnique(Listed(t, record), t);
  }

  lemma FoundIs(s: seq<Record>, record: Record)
    requires Strict(s) && record in s
    ensures Find(s, record.path) == Some(record)
  {
    FindFinds(s, record.path);
    StrictIsDistinct(s);
    var i :| 0 <= i < |s| && s[i] == record;
    assert s[i].path == record.path;
    var found := Find(s, record.path).value;
    var j :| 0 <= j < |s| && s[j] == found;
  }

  // ---------------------------------------------------------------- crash points

  function Placed(packages: map<string, Contents>, path: string, copied: Contents): map<string, Contents> {
    if path in packages then packages else packages[path := copied]
  }

  /** The tree at each crash point, written out: untouched, package in place, sidecar, manifest,
      sums. */
  function Stage(t: Tree, r: Request, record: Record, i: nat): Tree {
    var m := Current(t, r);
    var listed := Listed(m.packages, record);
    Tree(
      if i >= 1 then Placed(t.packages, record.path, r.copied) else t.packages,
      t.outside,
      if i >= 2 then t.sidecars[record.path := Sidecar(record.value.sha256, r.name)] else t.sidecars,
      if i >= 3 then Some(m.(packages := listed)) else t.manifest,
      if i >= 4 then Some(Sums(listed)) else t.sums)
  }

  function Removed(t: Tree, r: Request): Tree { if Removal(r) == [] then t else Do(t, Removal(r)[0]) }

  function Collected(t: Tree, r: Request, record: Record): Tree { Removed(Stage(t, r, record, 4), r) }

  /** What a plan that was not refused establishes. */
  ghost predicate Allowed(t: Tree, r: Request, record: Record, hash: Hash) {
    && Suited(r.platform, r.name) && record.path == Destination(r) && record.value.platform == r.platform
    && (var m := Current(t, r); (m.schema, m.version, m.branch) == (1, r.version, r.branch))
    && (Find(Current(t, r).packages, record.path).None? || Find(Current(t, r).packages, record.path).value == record)
    && (record.path in t.packages ==> hash(t.packages[record.path]) == record.value.sha256)
    && (record.path !in t.packages ==> hash(r.copied) == record.value.sha256)
  }

  /** A plan is made exactly when the source is there, its checksum is the expected one, and nothing
      in the directory disagrees. */
  lemma PlannedIff(t: Tree, r: Request, hash: Hash)
    ensures PlanOf(t, r, hash).Writes? <==>
            && SourceOf(t, r).Some?
            && (r.expected == [] || r.expected == hash(SourceOf(t, r).value))
            && Allowed(t, r, RecordOf(r, SourceOf(t, r).value, hash), hash)
  {
  }

  /** Each write but the removal leads from one stage to the next. */
  lemma WriteLeadsOn(t: Tree, r: Request, record: Record, k: nat)
    requires var present := record.path in t.packages; k < if present then 3 else 4
    ensures var present := record.path in t.packages;
            var writes, i := WritesOf(present, r, record, Current(t, r)), if present then k + 1 else k;
            && |writes| == (if present then 3 else 4) + |Removal(r)|
            && Stage(t, r, record, i + 1) == Do(Stage(t, r, record, i), writes[k])
  {
    if record.path in t.packages {
      match k case 0 => case 1 => case 2 =>
    } else {
      match k case 0 => case 1 => case 2 => case 3 =>
    }
  }

  lemma {:induction false} AfterIsStage(t: Tree, r: Request, record: Record, k: nat)
    requires var present := record.path in t.packages; k <= if present then 3 else 4
    ensures var present := record.path in t.packages;
            var writes := WritesOf(present, r, record, Current(t, r));
            && |writes| == (if present then 3 else 4) + |Removal(r)|
            && After(t, writes, k) == Stage(t, r, record, if present then k + 1 else k)
  {
    if k > 0 {
      AfterIsStage(t, r, record, k - 1);
      WriteLeadsOn(t, r, record, k - 1);
    }
  }

  lemma AfterAllIsCollected(t: Tree, r: Request, record: Record)
    ensures var writes := WritesOf(record.path in t.packages, r, record, Current(t, r));
            After(t, writes, |writes|) == Collected(t, r, record)
  {
    var n := if record.path in t.packages then 3 else 4;
    AfterIsStage(t, r, record, n);
    var writes := WritesOf(record.path in t.packages, r, record, Current(t, r));
    if Removal(r) != [] {
      assert writes[n] == Removal(r)[0];
      assert After(t, writes, n + 1) == Do(After(t, writes, n), writes[n]);
    }
  }

  lemma PutKeeps(t: Tree, path: string, contents: Contents, hash: Hash)
    requires Sound(t, hash) && path !in t.packages
    ensures Sound(t.(packages := t.packages[path := contents]), hash)
  {
    if t.manifest.Some? {
      var ps := t.manifest.value.packages;
      assert forall i | 0 <= i < |ps| :: Backed(ps[i], t, hash);
    }
  }

  lemma ListKeeps(t: Tree, m: Manifest, record: Record, hash: Hash)
    requires Strict(m.packages) && (Find(m.packages, record.path).None? || Find(m.packages, record.path).value == record)
    requires forall i | 0 <= i < |m.packages| :: Backed(m.packages[i], t, hash)
    requires Backed(record, t, hash)
    ensures Sound(t.(manifest := Some(m.(packages := Listed(m.packages, record)))), hash)
  {
    var ps := Listed(m.packages, record);
    var u := t.(manifest := Some(m.(packages := ps)));
    ListedAdds(m.packages, record);
    forall i | 0 <= i < |ps| ensures Backed(ps[i], u, hash) {
      assert ps[i] in ps;
    }
  }

  lemma RemoveKeeps(t: Tree, p: Platform, name: string, hash: Hash)
    requires Sound(t, hash) && !Suited(p, name)
    ensures Sound(t.(packages := t.packages - {PathOf(p, name)}), hash)
  {
    if t.manifest.Some? {
      var ps := t.manifest.value.packages;
      var u := t.(packages := t.packages - {PathOf(p, name)});
      forall i | 0 <= i < |ps| ensures Backed(ps[i], u, hash) {
        assert Backed(ps[i], t, hash);
        NotOnShelf(ps[i], p, name);
      }
    }
  }

  /** No record points at a file unfit for the platform it lies under. */
  lemma NotOnShelf(record: Record, p: Platform, name: string)
    requires Shelved(record) && !Suited(p, name)
    ensures record.path != PathOf(p, name)
  {
    var own := record.value.platform;
    var n :| record.path == PathOf(own, n) && Suited(own, n);
    PathOfIsInjective(own, n, p, name);
  }

  lemma PathOfIsInjective(p: Platform, n: string, q: Platform, m: string)
    ensures PathOf(p, n) == PathOf(q, m) ==> p == q && n == m
  {
    assert PathOf(p, n)[0] == Folder(p)[0] && PathOf(q, m)[0] == Folder(q)[0];
    assert PathOf(p, n)[6..] == n && PathOf(q, m)[6..] == m;
  }

  lemma OneFittingPlatform(p: Platform, q: Platform, name: string)
    requires Suited(p, name) && p != q
    ensures !Suited(q, name)
  {
    assert |name| > 4;
    assert forall suffix: string | |suffix| == 4 && EndsWith(name, suffix) :: name[|name| - 3] == suffix[1];
  }

  lemma StagesAreSound(t: Tree, r: Request, record: Record, hash: Hash, i: nat)
    requires Sound(t, hash) && Allowed(t, r, record, hash)
    ensures Sound(Stage(t, r, record, i), hash)
  {
    var placed := t.(packages := Placed(t.packages, record.path, r.copied));
    if record.path !in t.packages { PutKeeps(t, record.path, r.copied, hash); }
    assert Sound(placed, hash);
    if i >= 3 {
      assert Shelved(record) by {
        assert record.path == PathOf(record.value.platform, r.name) && Suited(record.value.platform, r.name);
      }
      ListKeeps(placed, Current(t, r), record, hash);
    }
  }

  lemma RemovedIsSound(t: Tree, r: Request, hash: Hash)
    requires Sound(t, hash) && Suited(r.platform, r.name)
    ensures Sound(Removed(t, r), hash)
  {
    if Removal(r) != [] && r.source.Shelf? {
      OneFittingPlatform(r.platform, r.source.platform, r.name);
      RemoveKeeps(t, r.source.platform, r.name, hash);
    }
  }

  lemma CutIsSound(t: Tree, r: Request, record: Record, hash: Hash, k: nat)
    requires Sound(t, hash) && Allowed(t, r, record, hash) && k <= if record.path in t.packages then 3 else 4
    ensures var writes := WritesOf(record.path in t.packages, r, record, Current(t, r));
            k <= |writes| && Sound(After(t, writes, k), hash)
  {
    AfterIsStage(t, r, record, k);
    StagesAreSound(t, r, record, hash, if record.path in t.packages then k + 1 else k);
  }

  lemma FinishedIsSound(t: Tree, r: Request, record: Record, hash: Hash)
    requires Sound(t, hash) && Allowed(t, r, record, hash)
    ensures var writes := WritesOf(record.path in t.packages, r, record, Current(t, r));
            Sound(After(t, writes, |writes|), hash)
  {
    AfterAllIsCollected(t, r, record);
    StagesAreSound(t, r, record, hash, 4);
    RemovedIsSound(Stage(t, r, record, 4), r, hash);
  }

  /** Wherever a collection is cut short, every manifest entry still has its package, present with
      the recorded digest, and the manifest is sorted without duplicates. */
  lemma CrashSafe(t: Tree, r: Request, hash: Hash, k: nat)
    requires Sound(t, hash) && PlanOf(t, r, hash).Writes? && k <= |PlanOf(t, r, hash).writes|
    ensures Sound(After(t, PlanOf(t, r, hash).writes, k), hash)
  {
    var record := RecordOf(r, SourceOf(t, r).value, hash);
    PlannedIff(t, r, hash);
    AfterIsStage(t, r, record, 0);
    if k <= if record.path in t.packages then 3 else 4 {
      CutIsSound(t, r, record, hash, k);
    } else {
      FinishedIsSound(t, r, record, hash);
    }
  }

  /** The same over a whole history of collections, each refused, finished or cut short anywhere. */
  ghost predicate IsHistory(trees: seq<Tree>, rs: seq<Request>, cuts: seq<nat>, hash: Hash) {
    && |trees| == |rs| + 1 == |cuts| + 1
    && forall i {:trigger rs[i]} | 0 <= i < |rs| ::
         var p := PlanOf(trees[i], rs[i], hash);
         trees[i + 1] == if p.Writes? && cuts[i] <= |p.writes| then After(trees[i], p.writes, cuts[i]) else trees[i]
  }

  lemma {:induction false} HistoryStaysSound(trees: seq<Tree>, rs: seq<Request>, cuts: seq<nat>, hash: Hash, n: nat)
    requires IsHistory(trees, rs, cuts, hash) && Sound(trees[0], hash) && n < |trees|
    ensures Sound(trees[n], hash)
  {
    if n > 0 {
      HistoryStaysSound(trees, rs, cuts, hash, n - 1);
      var t, r := trees[n - 1], rs[n - 1];
      if PlanOf(t, r, hash).Writes? && cuts[n - 1] <= |PlanOf(t, r, hash).writes| { CrashSafe(t, r, hash, cuts[n - 1]); }
    }
  }

  // ---------------------------------------------------------------- running again

  /** Up to the removal of the source, a second attempt sees the same source and is allowed, */
  lemma StagesStayAllowed(t: Tree, r: Request, record: Record, hash: Hash, i: nat)
    requires Sound(t, hash) && Allowed(t, r, record, hash) && SourceOf(t, r).Some?
    ensures SourceOf(Stage(t, r, record, i), r) == SourceOf(t, r)
    ensures Allowed(Stage(t, r, record, i), r, record, hash)
  {
    if r.source.Shelf? { PathOfIsInjective(r.source.platform, r.name, r.platform, r.name); }
    ListedTwice(Current(t, r).packages, record);
  }

  /** and ends in the same tree; */
  lemma StagesEndTheSame(t: Tree, r: Request, record: Record, hash: Hash, i: nat)
    requires Sound(t, hash) && Allowed(t, r, record, hash)
    ensures Stage(Stage(t, r, record, i), r, record, 4) == Stage(t, r, record, 4)
  {
    var m, u := Current(t, r), Stage(t, r, record, i);
    var listed := Listed(m.packages, record);
    ListedTwice(m.packages, record);
    assert Current(u, r).(packages := listed) == m.(packages := listed);
    assert Listed(Current(u, r).packages, record) == listed;
    PlacedTwice(t.packages, record.path, r.copied);
  }

  lemma PlacedTwice(packages: map<string, Contents>, path: string, copied: Contents)
    ensures Placed(Placed(packages, path, copied), path, copied) == Placed(packages, path, copied)
  {
  }

  /** after it, the collection is complete and a second attempt is refused for want of a source. */
  lemma RemovedIsMissing(t: Tree, r: Request, hash: Hash)
    requires Removal(r) != []
    ensures SourceOf(Removed(t, r), r) == None && PlanOf(Removed(t, r), r, hash) == Refused(Missing)
  {
  }

  lemma OutcomeIsCollected(t: Tree, r: Request, hash: Hash)
    requires PlanOf(t, r, hash).Writes?
    ensures Outcome(t, r, hash) == Collected(t, r, RecordOf(r, SourceOf(t, r).value, hash))
  {
    AfterAllIsCollected(t, r, RecordOf(r, SourceOf(t, r).value, hash));
  }

  /** From any crash point, running the same collection again reaches the tree of the uninterrupted
      one; it is refused only when nothing was left to do but the source is already gone. */
  lemma RerunCompletes(t: Tree, r: Request, hash: Hash, k: nat)
    requires Sound(t, hash) && PlanOf(t, r, hash).Writes? && k <= |PlanOf(t, r, hash).writes|
    ensures var cut := After(t, PlanOf(t, r, hash).writes, k);
            && Outcome(cut, r, hash) == Outcome(t, r, hash)
            && (PlanOf(cut, r, hash).Refused? <==> k == |PlanOf(t, r, hash).writes| && Removal(r) != [])
  {
    var record := RecordOf(r, SourceOf(t, r).value, hash);
    var n := if record.path in t.packages then 3 else 4;
    PlannedIff(t, r, hash);
    OutcomeIsCollected(t, r, hash);
    AfterIsStage(t, r, record, if k <= n then k else n);
    if k <= n {
      RerunOfStage(t, r, record, hash, if record.path in t.packages then k + 1 else k);
    } else {
      AfterAllIsCollected(t, r, record);
      RemovedIsMissing(Stage(t, r, record, 4), r, hash);
    }
  }

  lemma RerunOfStage(t: Tree, r: Request, record: Record, hash: Hash, i: nat)
    requires Sound(t, hash) && PlanOf(t, r, hash).Writes? && record == RecordOf(r, SourceOf(t, r).value, hash)
    ensures var cut := Stage(t, r, record, i);
            PlanOf(cut, r, hash).Writes? && Outcome(cut, r, hash) == Collected(t, r, record)
  {
    var cut := Stage(t, r, record, i);
    PlannedIff(t, r, hash);
    StagesStayAllowed(t, r, record, hash, i);
    StagesEndTheSame(t, r, record, hash, i);
    PlannedIff(cut, r, hash);
    OutcomeIsCollected(cut, r, hash);
  }

  // ---------------------------------------------------------------- any order

  function PackagesIn(t: Tree): seq<Record> { if t.manifest.Some? then t.manifest.value.packages else [] }

  /** Collections one after another; a refused one leaves the tree alone. */
  ghost predicate Runs(trees: seq<Tree>, rs: seq<Request>, hash: Hash) {
    && |trees| == |rs| + 1
    && forall i {:trigger rs[i]} | 0 <= i < |rs| :: trees[i + 1] == Outcome(trees[i], rs[i], hash)
  }

  /** A request that, taken alone, would be collected. */
  ghost predicate Collectable(t: Tree, r: Request, hash: Hash) {
    && SourceOf(t, r).Some?
    && var contents := SourceOf(t, r).value;
       && hash(r.copied) == hash(contents) && (r.expected == [] || r.expected == hash(contents))
       && Allowed(t, r, RecordOf(r, contents, hash), hash)
  }

  function OwnRecord(t: Tree, r: Request, hash: Hash): Record
    requires SourceOf(t, r).Some?
  {
    RecordOf(r, SourceOf(t, r).value, hash)
  }

  /** The two requests name one and the same file. */
  predicate SameSource(a: Request, b: Request) {
    match a.source
    case Outside(_) => a.source == b.source
    case Shelf(p) => b.source.Shelf? && PathOf(p, a.name) == PathOf(b.source.platform, b.name)
  }

  /** Two requests for one version that do not disagree about a path. */
  ghost predicate Compatible(t: Tree, a: Request, b: Request, hash: Hash)
    requires Collectable(t, a, hash) && Collectable(t, b, hash)
  {
    && a.version == b.version && a.branch == b.branch
    && (Destination(a) == Destination(b) ==> OwnRecord(t, a, hash) == OwnRecord(t, b, hash))
  }

  /** All can be collected, none disagrees with another, and none removes another's source. */
  ghost predicate NonConflicting(t: Tree, rs: seq<Request>, hash: Hash) {
    && (forall i | 0 <= i < |rs| :: Collectable(t, rs[i], hash))
    && (forall i, j | 0 <= i < |rs| && 0 <= j < |rs| :: Compatible(t, rs[i], rs[j], hash))
    && (forall i, j | 0 <= i < |rs| && 0 <= j < |rs| && i != j :: Removal(rs[i]) != [] ==> !SameSource(rs[i], rs[j]))
  }

  /** Collecting one request leaves a compatible one collectable. */
  lemma StaysAllowed(t: Tree, r: Request, record: Record, other: Request, theirs: Record, hash: Hash)
    requires Sound(t, hash) && Allowed(t, r, record, hash) && Allowed(t, other, theirs, hash)
    requires r.version == other.version && r.branch == other.branch
    requires hash(other.copied) == theirs.value.sha256 && (record.path == theirs.path ==> record == theirs)
    ensures Allowed(Collected(t, r, record), other, theirs, hash)
  {
    WrittenStaysAllowed(t, r, record, other, theirs, hash);
    RemovedStaysAllowed(Stage(t, r, record, 4), r, other, theirs, hash);
  }

  lemma WrittenStaysAllowed(t: Tree, r: Request, record: Record, other: Request, theirs: Record, hash: Hash)
    requires Sound(t, hash) && Allowed(t, r, record, hash) && Allowed(t, other, theirs, hash)
    requires r.version == other.version && r.branch == other.branch
    requires hash(other.copied) == theirs.value.sha256 && (record.path == theirs.path ==> record == theirs)
    ensures Allowed(Stage(t, r, record, 4), other, theirs, hash)
  {
    var s := PackagesIn(t);
    assert Current(t, r).packages == Current(t, other).packages == s;
    FoundInListed(s, record, theirs);
  }

  lemma RemovedStaysAllowed(t: Tree, r: Request, other: Request, theirs: Record, hash: Hash)
    requires Allowed(t, other, theirs, hash) && hash(other.copied) == theirs.value.sha256
    ensures Allowed(Removed(t, r), other, theirs, hash)
  {
  }

  lemma FoundInListed(s: seq<Record>, record: Record, theirs: Record)
    requires Strict(s) && (Find(s, record.path).None? || Find(s, record.path).value == record)
    requires Find(s, theirs.path).None? || Find(s, theirs.path).value == theirs
    requires record.path == theirs.path ==> record == theirs
    ensures Find(Listed(s, record), theirs.path).None? || Find(Listed(s, record), theirs.path).value == theirs
  {
    var found := Find(Listed(s, record), theirs.path);
    ListedAdds(s, record);
    FindFinds(Listed(s, record), theirs.path);
    if found.Some? && found.value in s { FoundIs(s, found.value); }
  }

  /** What the first n of the requests leave behind. */
  ghost predicate Joined(t: Tree, now: Tree, rs: seq<Request>, n: nat, hash: Hash)
    requires NonConflicting(t, rs, hash) && n <= |rs|
  {
    && Sound(now, hash)
    && (forall j | 0 <= j < |rs| :: Allowed(now, rs[j], OwnRecord(t, rs[j], hash), hash))
    && (forall j | n <= j < |rs| :: SourceOf(now, rs[j]) == SourceOf(t, rs[j]))
    && (forall x :: x in PackagesIn(now) <==> x in PackagesIn(t) || Among(t, rs, n, x, hash))
    && (n > 0 ==> now.manifest == Some(Current(t, rs[0]).(packages := PackagesIn(now))) && now.sums == Some(Sums(PackagesIn(now))))
    && (n == 0 ==> now == t)
  }

  ghost predicate Among(t: Tree, rs: seq<Request>, n: nat, x: Record, hash: Hash)
    requires NonConflicting(t, rs, hash) && n <= |rs|
  {
    exists j | 0 <= j < n :: x == OwnRecord(t, rs[j], hash)
  }

  lemma JoinedStep(t: Tree, now: Tree, next: Tree, rs: seq<Request>, n: nat, hash: Hash)
    requires NonConflicting(t, rs, hash) && n < |rs| && Joined(t, now, rs, n, hash) && next == Outcome(now, rs[n], hash)
    ensures PlanOf(now, rs[n], hash).Writes?
    ensures Joined(t, next, rs, n + 1, hash)
  {
    var r := rs[n];
    var record := OwnRecord(t, r, hash);
    assert SourceOf(now, r) == SourceOf(t, r);
    PlannedIff(now, r, hash);
    OutcomeIsCollected(now, r, hash);
    StagesAreSound(now, r, record, hash, 4);
    RemovedIsSound(Stage(now, r, record, 4), r, hash);
    JoinedAllowed(t, now, rs, n, hash);
    JoinedSources(t, now, rs, n, hash);
    JoinedManifest(t, now, rs, n, hash);
  }

  lemma JoinedAllowed(t: Tree, now: Tree, rs: seq<Request>, n: nat, hash: Hash)
    requires NonConflicting(t, rs, hash) && n < |rs| && Joined(t, now, rs, n, hash)
    ensures var next := Collected(now, rs[n], OwnRecord(t, rs[n], hash));
            forall j | 0 <= j < |rs| :: Allowed(next, rs[j], OwnRecord(t, rs[j], hash), hash)
  {
    var r := rs[n];
    var record := OwnRecord(t, r, hash);
    forall j | 0 <= j < |rs| ensures Allowed(Collected(now, r, record), rs[j], OwnRecord(t, rs[j], hash), hash) {
      assert Compatible(t, r, rs[j], hash) && Collectable(t, rs[j], hash);
      StaysAllowed(now, r, record, rs[j], OwnRecord(t, rs[j], hash), hash);
    }
  }

  lemma JoinedSources(t: Tree, now: Tree, rs: seq<Request>, n: nat, hash: Hash)
    requires NonConflicting(t, rs, hash) && n < |rs| && Joined(t, now, rs, n, hash)
    ensures var next := Collected(now, rs[n], OwnRecord(t, rs[n], hash));
            forall j | n + 1 <= j < |rs| :: SourceOf(next, rs[j]) == SourceOf(t, rs[j])
  {
    forall j | n + 1 <= j < |rs|
      ensures SourceOf(Collected(now, rs[n], OwnRecord(t, rs[n], hash)), rs[j]) == SourceOf(t, rs[j])
    {
      assert Collectable(t, rs[j], hash);
      SourceStays(now, rs[n], OwnRecord(t, rs[n], hash), rs[j]);
    }
  }

  /** A collection that does not remove the other's source leaves it as it is. */
  lemma SourceStays(t: Tree, r: Request, record: Record, other: Request)
    requires SourceOf(t, other).Some? && (Removal(r) != [] ==> !SameSource(r, other))
    ensures SourceOf(Collected(t, r, record), other) == SourceOf(t, other)
  {
  }

  lemma JoinedManifest(t: Tree, now: Tree, rs: seq<Request>, n: nat, hash: Hash)
    requires NonConflicting(t, rs, hash) && n < |rs| && Joined(t, now, rs, n, hash)
    ensures var next := Collected(now, rs[n], OwnRecord(t, rs[n], hash));
            && (forall x :: x in PackagesIn(next) <==> x in PackagesIn(t) || Among(t, rs, n + 1, x, hash))
            && next.manifest == Some(Current(t, rs[0]).(packages := PackagesIn(next)))
            && next.sums == Some(Sums(PackagesIn(next)))
  {
    var r := rs[n];
    var record := OwnRecord(t, r, hash);
    assert Compatible(t, rs[0], r, hash);
    assert Current(now, r).packages == PackagesIn(now);
    JoinedMembers(t, now, rs, n, hash, Listed(PackagesIn(now), record));
  }

  lemma JoinedMembers(t: Tree, now: Tree, rs: seq<Request>, n: nat, hash: Hash, listed: seq<Record>)
    requires NonConflicting(t, rs, hash) && n < |rs| && Joined(t, now, rs, n, hash)
    requires listed == Listed(PackagesIn(now), OwnRecord(t, rs[n], hash))
    ensures forall x :: x in listed <==> x in PackagesIn(t) || Among(t, rs, n + 1, x, hash)
  {
    var record := OwnRecord(t, rs[n], hash);
    assert Allowed(now, rs[n], record, hash);
    ListedAdds(PackagesIn(now), record);
    forall x ensures Among(t, rs, n + 1, x, hash) <==> Among(t, rs, n, x, hash) || x == record {
      AmongNext(t, rs, n, x, hash);
    }
  }

  lemma AmongNext(t: Tree, rs: seq<Request>, n: nat, x: Record, hash: Hash)
    requires NonConflicting(t, rs, hash) && n < |rs|
    ensures Among(t, rs, n + 1, x, hash) <==> Among(t, rs, n, x, hash) || x == OwnRecord(t, rs[n], hash)
  {
  }

  lemma NextJoins(trees: seq<Tree>, rs: seq<Request>, hash: Hash, n: nat)
    requires Runs(trees, rs, hash) && NonConflicting(trees[0], rs, hash) && 0 < n <= |rs|
    requires Joined(trees[0], trees[n - 1], rs, n - 1, hash)
    ensures Joined(trees[0], trees[n], rs, n, hash)
  {
    var r := rs[n - 1];
    JoinedStep(trees[0], trees[n - 1], trees[n], rs, n - 1, hash);
  }

  lemma {:induction false} AllJoin(trees: seq<Tree>, rs: seq<Request>, hash: Hash, n: nat)
    requires Runs(trees, rs, hash) && Sound(trees[0], hash) && NonConflicting(trees[0], rs, hash) && n <= |rs|
    ensures Joined(trees[0], trees[n], rs, n, hash)
  {
    if n > 0 {
      AllJoin(trees, rs, hash, n - 1);
      NextJoins(trees, rs, hash, n);
    } else {
      NoneJoined(trees[0], rs, hash);
    }
  }

  lemma NoneJoined(t: Tree, rs: seq<Request>, hash: Hash)
    requires Sound(t, hash) && NonConflicting(t, rs, hash)
    ensures Joined(t, t, rs, 0, hash)
  {
    forall j | 0 <= j < |rs| ensures Allowed(t, rs[j], OwnRecord(t, rs[j], hash), hash) {
      assert Collectable(t, rs[j], hash);
    }
  }

  /** Non-conflicting collections all succeed, */
  lemma NoneRefused(trees: seq<Tree>, rs: seq<Request>, hash: Hash, j: nat)
    requires Runs(trees, rs, hash) && Sound(trees[0], hash) && NonConflicting(trees[0], rs, hash) && j < |rs|
    ensures PlanOf(trees[j], rs[j], hash).Writes?
  {
    AllJoin(trees, rs, hash, j);
    JoinedStep(trees[0], trees[j], trees[j + 1], rs, j, hash);
  }

  /** and in whatever order they run they give one and the same manifest (sorted, without
      duplicates) and a SHA256SUMS that matches it. */
  lemma OrderDoesNotMatter(trees: seq<Tree>, rs: seq<Request>, others: seq<Tree>, reordered: seq<Request>, hash: Hash)
    requires Runs(trees, rs, hash) && Runs(others, reordered, hash) && trees[0] == others[0] && Sound(trees[0], hash)
    requires NonConflicting(trees[0], rs, hash) && NonConflicting(trees[0], reordered, hash)
    requires rs != [] && forall r :: r in rs <==> r in reordered
    ensures var a, b := trees[|rs|], others[|reordered|];
            && a.manifest.Some? && Strict(PackagesIn(a)) && Sound(a, hash) && Sound(b, hash)
            && a.manifest == b.manifest && a.sums == b.sums == Some(Sums(PackagesIn(a)))
  {
    var t := trees[0];
    AllJoin(trees, rs, hash, |rs|);
    AllJoin(others, reordered, hash, |reordered|);
    assert rs[0] in reordered;
    var a, b := PackagesIn(trees[|rs|]), PackagesIn(others[|reordered|]);
    forall x ensures x in a <==> x in b { SameAmong(t, rs, reordered, x, hash); }
    StrictIsUnique(a, b);
    assert Compatible(t, rs[0], reordered[0], hash) by {
      var j :| 0 <= j < |reordered| && reordered[j] == rs[0];
      assert Compatible(t, reordered[j], reordered[0], hash);
    }
  }

  lemma SameAmong(t: Tree, rs: seq<Request>, reordered: seq<Request>, x: Record, hash: Hash)
    requires NonConflicting(t, rs, hash) && NonConflicting(t, reordered, hash)
    requires forall r :: r in rs <==> r in reordered
    ensures Among(t, rs, |rs|, x, hash) <==> Among(t, reordered, |reordered|, x, hash)
  {
    AmongMembers(t, rs, reordered, x, hash);
    AmongMembers(t, reordered, rs, x, hash);
  }

  lemma AmongMembers(t: Tree, rs: seq<Request>, more: seq<Request>, x: Record, hash: Hash)
    requires NonConflicting(t, rs, hash) && NonConflicting(t, more, hash)
    requires forall r :: r in rs ==> r in more
    ensures Among(t, rs, |rs|, x, hash) ==> Among(t, more, |more|, x, hash)
  {
    if Among(t, rs, |rs|, x, hash) {
      var j :| 0 <= j < |rs| && x == OwnRecord(t, rs[j], hash);
      assert rs[j] in more;
      var k :| 0 <= k < |more| && more[k] == rs[j];
    }
  }

  // ---------------------------------------------------------------- what a reader of the files finds

  /** Digests are plain words and paths single lines. */
  ghost predicate Plain(record: Record) {
    ' ' !in record.value.sha256 && '\n' !in record.value.sha256 && '\n' !in record.path
  }

  /** SHA256SUMS reads back as the manifest's digests and paths, in manifest order. */
  lemma {:induction false} SumsReadBack(packages: seq<Record>)
    requires forall i | 0 <= i < |packages| :: Plain(packages[i])
    ensures var pairs := ReadSums(Sums(packages));
            && |pairs| == |packages|
            && forall i | 0 <= i < |packages| :: pairs[i] == (packages[i].value.sha256, packages[i].path)
  {
    if packages != [] {
      var first, rest := packages[0], packages[1..];
      SumsReadBack(rest);
      ReadsOneLine(first.value.sha256, first.path, Sums(rest));
      assert Sums(packages) == first.value.sha256 + "  " + first.path + "\n" + Sums(rest);
    } else {
      assert Sums(packages) == [];
    }
  }

  /** So in a sound tree whose SHA256SUMS is up to date, every line names a package that is there, with
      the digest it has; and every manifest entry has its line. */
  lemma SumsAreTrue(t: Tree, hash: Hash, i: nat)
    requires Sound(t, hash) && t.sums == Some(Sums(PackagesIn(t))) && i < |PackagesIn(t)|
    requires forall k | 0 <= k < |PackagesIn(t)| :: Plain(PackagesIn(t)[k])
    ensures var pairs := ReadSums(t.sums.value);
            && |pairs| == |PackagesIn(t)| && pairs[i].1 == PackagesIn(t)[i].path
            && pairs[i].1 in t.packages && hash(t.packages[pairs[i].1]) == pairs[i].0
  {
    SumsReadBack(PackagesIn(t));
    assert Backed(PackagesIn(t)[i], t, hash);
  }

  lemma SidecarReadsBack(digest: string, name: string)
    requires ' ' !in digest && '\n' !in digest && '\n' !in name
    ensures ReadSums(Sidecar(digest, name)) == [(digest, name)]
  {
    ReadsOneLine(digest, name, "");
    assert Sidecar(digest, name) == digest + "  " + name + "\n" + "";
  }

  /** The kinds of file each platform collects. */
  lemma SuitedIff(p: Platform, name: string)
    ensures Suited(p, name) <==>
            exists stem: string :: stem != "" &&
              if p.Linux? then name == stem + ".deb" || name == stem + ".rpm" else name == stem + ".pkg" || name == stem + ".dmg"
  {
    if |name| > 4 {
      var stem, suffix := name[..|name| - 4], name[|name| - 4..];
      assert name == stem + suffix;
    }
  }

  /** What the request's fields become in the manifest. */
  ghost predicate Describes(x: Record, r: Request, contents: Contents, hash: Hash) {
    && x.path == (if r.platform.Linux? then "linux/" else "macos/") + r.name
    && x.value.product == r.product && x.value.platform == r.platform && x.value.architecture == r.architecture
    && x.value.targetOs == r.targetOs && x.value.size == |contents| && x.value.sha256 == hash(contents)
    && x.value.commit == r.commit && x.value.submodules == r.submodules && x.value.validation == r.validation
  }

  /** The file the request names. */
  ghost predicate Supplies(t: Tree, r: Request, contents: Contents) {
    match r.source
    case Outside(f) => f in t.outside && t.outside[f] == contents
    case Shelf(p) =>
      var path := (if p.Linux? then "linux/" else "macos/") + r.name;
      path in t.packages && t.packages[path] == contents
  }

  lemma DescribedIsRecord(x: Record, r: Request, contents: Contents, hash: Hash)
    ensures Describes(x, r, contents, hash) <==> x == RecordOf(r, contents, hash)
  {
  }

  /** The entry under a path is the one the script looks up there. */
  lemma FoundDescribes(s: seq<Record>, r: Request, contents: Contents, hash: Hash)
    requires Strict(s)
    ensures var found := Find(s, Destination(r));
            (found.None? || found.value == RecordOf(r, contents, hash)) <==>
            forall i | 0 <= i < |s| && s[i].path == Destination(r) :: Describes(s[i], r, contents, hash)
  {
    var found := Find(s, Destination(r));
    FindFinds(s, Destination(r));
    StrictIsDistinct(s);
    if found.Some? {
      var j :| 0 <= j < |s| && s[j] == found.value;
      assert forall i | 0 <= i < |s| && s[i].path == Destination(r) :: i == j;
      DescribedIsRecord(s[j], r, contents, hash);
    }
  }

  /** A collection is accepted exactly when the file fits the platform, has the expected digest, belongs
      to this manifest, does not contradict an entry for its path, and neither meets a different package
      nor is copied wrongly; and each refusal names its reason. */
  lemma AcceptedIff(t: Tree, r: Request, contents: Contents, hash: Hash)
    requires Sound(t, hash) && Supplies(t, r, contents)
    ensures var dest := (if r.platform.Linux? then "linux/" else "macos/") + r.name;
            var p := PlanOf(t, r, hash);
            var mine := t.manifest.None?
                        || (t.manifest.value.schema, t.manifest.value.version, t.manifest.value.branch) == (1, r.version, r.branch);
            var agrees := forall i | 0 <= i < |PackagesIn(t)| && PackagesIn(t)[i].path == dest ::
                            Describes(PackagesIn(t)[i], r, contents, hash);
            && (p.Writes? <==>
                  && Suited(r.platform, r.name) && (r.expected == "" || r.expected == hash(contents)) && mine && agrees
                  && hash(if dest in t.packages then t.packages[dest] else r.copied) == hash(contents))
            && (p.Refused? ==>
                  match p.error
                  case Missing => false
                  case Extension => !Suited(r.platform, r.name)
                  case Checksum => r.expected != "" && r.expected != hash(contents)
                  case OtherManifest => !mine
                  case Conflict => !agrees
                  case DifferentPackage => dest in t.packages && hash(t.packages[dest]) != hash(contents)
                  case BadCopy => dest !in t.packages && hash(r.copied) != hash(contents))
  {
    assert Current(t, r).packages == PackagesIn(t);
    FoundDescribes(PackagesIn(t), r, contents, hash);
  }

  lemma MissingIff(t: Tree, r: Request, hash: Hash)
    ensures PlanOf(t, r, hash) == Refused(Missing) <==> forall contents :: !Supplies(t, r, contents)
  {
    if SourceOf(t, r).Some? { assert Supplies(t, r, SourceOf(t, r).value); }
  }

  /** What an accepted collection leaves behind: the package and its sidecar, */
  lemma CollectionLeavesFiles(t: Tree, r: Request, contents: Contents, hash: Hash)
    requires Supplies(t, r, contents) && PlanOf(t, r, hash).Writes?
    ensures var u := Outcome(t, r, hash);
            var dest := (if r.platform.Linux? then "linux/" else "macos/") + r.name;
            && dest in u.packages && hash(u.packages[dest]) == hash(contents)
            && u.packages[dest] == (if dest in t.packages then t.packages[dest] else r.copied)
            && u.sidecars == t.sidecars[dest := hash(contents) + "  " + r.name + "\n"]
  {
    PlannedIff(t, r, hash);
    OutcomeIsCollected(t, r, hash);
    if r.source.Shelf? { PathOfIsInjective(r.source.platform, r.name, r.platform, r.name); }
  }

  /** the manifest with its header, */
  lemma CollectionLeavesHeader(t: Tree, r: Request, hash: Hash)
    requires PlanOf(t, r, hash).Writes?
    ensures var u := Outcome(t, r, hash);
            && u.manifest.Some? && u.sums == Some(Sums(u.manifest.value.packages))
            && (u.manifest.value.schema, u.manifest.value.version, u.manifest.value.branch) == (1, r.version, r.branch)
            && u.manifest.value.channel == (if t.manifest.Some? then t.manifest.value.channel
                                            else if r.branch == "main" then "releases" else "candidates")
  {
    PlannedIff(t, r, hash);
    OutcomeIsCollected(t, r, hash);
  }

  /** and in it the old entries and one that describes the request. */
  lemma CollectionLeavesEntries(t: Tree, r: Request, contents: Contents, hash: Hash) returns (x: Record)
    requires Sound(t, hash) && Supplies(t, r, contents) && PlanOf(t, r, hash).Writes?
    ensures Describes(x, r, contents, hash) && Strict(PackagesIn(Outcome(t, r, hash)))
    ensures forall y :: y in PackagesIn(Outcome(t, r, hash)) <==> y in PackagesIn(t) || y == x
  {
    x := RecordOf(r, contents, hash);
    PlannedIff(t, r, hash);
    OutcomeIsCollected(t, r, hash);
    assert Current(t, r).packages == PackagesIn(t);
    ListedAdds(PackagesIn(t), x);
  }

  /** Only a moved source goes away, and only when it is not the collected file itself. */
  lemma CollectionRemoves(t: Tree, r: Request, hash: Hash)
    requires PlanOf(t, r, hash).Writes?
    ensures var u := Outcome(t, r, hash);
            var dest := (if r.platform.Linux? then "linux/" else "macos/") + r.name;
            var gone := r.move && r.source != Shelf(r.platform);
            && (forall f :: f in u.outside <==> f in t.outside && !(gone && r.source == Outside(f)))
            && (forall f | f in u.outside :: u.outside[f] == t.outside[f])
            && (forall path | path != dest ::
                  path in u.packages <==>
                  path in t.packages
                  && !(gone && r.source.Shelf? && path == (if r.source.platform.Linux? then "linux/" else "macos/") + r.name))
            && (forall path | path != dest && path in u.packages :: u.packages[path] == t.packages[path])
  {
    OutcomeIsCollected(t, r, hash);
    if r.source.Shelf? { PathOfIsInjective(r.source.platform, r.name, r.platform, r.name); }
  }

  // ---------------------------------------------------------------- the script as written

  class Directory {
    var packages: map<string, Contents>
    var outside: map<string, Contents>
    var sidecars: map<string, string>
    var manifest: Option<Manifest>
    var sums: Option<string>
    ghost var journal: seq<Write>   // every visible write, in order

    function Value(): Tree
      reads this
    {
      Tree(packages, outside, sidecars, manifest, sums)
    }

    constructor (t: Tree)
      ensures Value() == t && journal == []
    {
      packages, outside, sidecars, manifest, sums := t.packages, t.outside, t.sidecars, t.manifest, t.sums;
      journal := [];
    }

    /** One collection under the lock: refused without a trace, or every planned write in order. */
    method Collect(r: Request, hash: Hash) returns (refusal: Option<Error>)
      modifies this
      ensures var p := PlanOf(old(Value()), r, hash);
              && (refusal == if p.Writes? then None else Some(p.error))
              && journal == old(journal) + (if p.Writes? then p.writes else [])
              && Value() == Outcome(old(Value()), r, hash)
    {
      var source := SourceOf(Value(), r);
      if source.None? { return Some(Missing); }
      if !Suited(r.platform, r.name) { return Some(Extension); }
      var record := RecordOf(r, source.value, hash);
      var checksum := record.value.sha256;
      if r.expected != [] && r.expected != checksum { return Some(Checksum); }
      var m := Current(Value(), r);
      if m.schema != 1 || m.version != r.version || m.branch != r.branch { return Some(OtherManifest); }
      var previous := Find(m.packages, record.path);
      if previous.Some? && previous.value != record { return Some(Conflict); }
      if record.path in packages && hash(packages[record.path]) != checksum { return Some(DifferentPackage); }
      if record.path !in packages && hash(r.copied) != checksum { return Some(BadCopy); }
      WriteAll(r, record);
      AfterAllIsCollected(old(Value()), r, record);
      refusal := None;
    }

    /** The atomic writes of an accepted collection. */
    method WriteAll(r: Request, record: Record)
      modifies this
      ensures Value() == Collected(old(Value()), r, record)
      ensures journal == old(journal) + WritesOf(record.path in old(packages), r, record, Current(old(Value()), r))
    {
      var m := Current(Value(), r);
      Place(record.path, r.copied);
      Publish(record, r.name, m);
      RemoveSupplied(r);
    }

    method Place(path: string, contents: Contents)
      modifies this`packages, this`journal
      ensures packages == Placed(old(packages), path, contents)
      ensures journal == old(journal) + (if path in old(packages) then [] else [PutPackage(path, contents)])
    {
      if path !in packages {
        packages, journal := packages[path := contents], journal + [PutPackage(path, contents)];
      }
    }

    method Publish(record: Record, name: string, m: Manifest)
      modifies this`sidecars, this`manifest, this`sums, this`journal
      ensures var listed := Listed(m.packages, record);
              var text := Sidecar(record.value.sha256, name);
              && sidecars == old(sidecars)[record.path := text]
              && manifest == Some(m.(packages := listed))
              && sums == Some(Sums(listed))
              && journal == old(journal) + [PutSidecar(record.path, text), PutManifest(m.(packages := listed)), PutSums(Sums(listed))]
    {
      var listed := m.packages;
      if Find(m.packages, record.path).None? { listed := listed + [record]; }
      listed := Sort(listed);
      var text := Sidecar(record.value.sha256, name);
      sidecars, journal := sidecars[record.path := text], journal + [PutSidecar(record.path, text)];
      var next := m.(packages := listed);
      manifest, journal := Some(next), journal + [PutManifest(next)];
      sums, journal := Some(Sums(listed)), journal + [PutSums(Sums(listed))];
    }

    method RemoveSupplied(r: Request)
      modifies this`packages, this`outside, this`journal
      ensures Value() == Removed(old(Value()), r) && journal == old(journal) + Removal(r)
    {
      if r.move && r.source != Shelf(r.platform) {
        if r.source.Outside? { outside := outside - {r.source.file}; }
        else { packages := packages - {PathOf(r.source.platform, r.name)}; }
        journal := journal + Removal(r);
      }
    }
  }
}
