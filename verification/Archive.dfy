/** Packing a source tree into a release archive, and installing an archive in a worker. */
module Archive {
  import opened Prelude
  import opened Names

  type Path = seq<string>

  datatype Kind = Regular | Directory | Link | Device | Other

  datatype Entry = Entry(name: string, kind: Kind, data: seq<Byte>)

  // ---------------------------------------------------------------- names and paths

  function Split(name: string): (parts: seq<string>)
    ensures parts != []
  {
    if name == "" then [""]
    else
      var rest := Split(name[1..]);
      if name[0] == '/' then [""] + rest else [[name[0]] + rest[0]] + rest[1..]
  }

  function Meaningful(parts: seq<string>): Path {
    if parts == [] then []
    else if parts[0] == "" || parts[0] == "." then Meaningful(parts[1..])
    else [parts[0]] + Meaningful(parts[1..])
  }

  /** Path(name).parts of a relative name; two names are one path exactly when these are equal. */
  function PartsOf(name: string): Path {
    Meaningful(Split(name))
  }

  function Join(path: Path): string {
    if path == [] then "" else if |path| == 1 then path[0] else path[0] + "/" + Join(path[1..])
  }

  predicate ProperPart(part: string) {
    part != "" && part != "." && part != ".." && '/' !in part
  }

  predicate ProperPath(path: Path) {
    path != [] && forall i :: 0 <= i < |path| ==> ProperPart(path[i])
  }

  lemma {:induction false} SplitPart(part: string)
    requires '/' !in part
    ensures Split(part) == [part]
  {
    if part != "" {
      SplitPart(part[1..]);
      assert [part[0]] + part[1..] == part;
    }
  }

  lemma {:induction false} SplitAt(part: string, rest: string)
    requires '/' !in part
    ensures Split(part + "/" + rest) == [part] + Split(rest)
  {
    var name := part + "/" + rest;
    if part == "" {
      assert name[1..] == rest;
    } else {
      assert name[1..] == part[1..] + "/" + rest;
      SplitAt(part[1..], rest);
      assert [part[0]] + part[1..] == part;
    }
  }

  /** The parts of a name: slashes separate, empty parts and dots are nothing, anything else is itself. */
  lemma PartsOfSpec(part: string, before: string, after: string)
    ensures '/' !in part ==> PartsOf(part) == if part == "" || part == "." then [] else [part]
    ensures PartsOf(before + "/" + after) == PartsOf(before) + PartsOf(after)
  {
    if '/' !in part {
      SplitPart(part);
      assert [part][1..] == [] && Meaningful([]) == [];
    }
    SplitJoin(before, after);
    MeaningfulJoin(Split(before), Split(after));
  }

  lemma SplitStep(name: string)
    requires name != ""
    ensures var rest := Split(name[1..]);
      Split(name) == if name[0] == '/' then [""] + rest else [[name[0]] + rest[0]] + rest[1..]
  {
  }

  lemma {:induction false} SplitJoin(before: string, after: string)
    ensures Split(before + "/" + after) == Split(before) + Split(after)
  {
    var name := before + "/" + after;
    SplitStep(name);
    if before == "" {
      assert name[1..] == after;
    } else {
      SplitStep(before);
      hide Split;
      assert name[1..] == before[1..] + "/" + after;
      SplitJoin(before[1..], after);
      var (x, y) := (Split(before[1..]), Split(after));
      assert (x + y)[1..] == x[1..] + y && (x + y)[0] == x[0];
    }
  }

  lemma {:induction false} MeaningfulJoin(a: seq<string>, b: seq<string>)
    ensures Meaningful(a + b) == Meaningful(a) + Meaningful(b)
  {
    if a == [] {
      assert a + b == b;
    } else {
      assert (a + b)[1..] == a[1..] + b;
      MeaningfulJoin(a[1..], b);
    }
  }

  /** The name a file gets in the archive leads back to its path. */
  lemma {:induction false} NameLeadsBack(path: Path)
    requires ProperPath(path)
    ensures PartsOf(Join(path)) == path && Join(path) != "" && Join(path)[0] != '/'
    decreases |path|
  {
    assert ProperPart(path[0]);
    if |path| == 1 {
      SplitPart(path[0]);
      assert Meaningful([path[0]]) == [path[0]] + Meaningful([path[0]][1..]);
    } else {
      NameLeadsBack(path[1..]);
      SplitAt(path[0], Join(path[1..]));
      var parts := [path[0]] + Split(Join(path[1..]));
      assert parts[1..] == Split(Join(path[1..]));
      assert Meaningful(parts) == [path[0]] + Meaningful(parts[1..]);
    }
  }

  // ---------------------------------------------------------------- the staging tree

  datatype Tree = Tree(files: map<Path, seq<Byte>>, dirs: set<Path>)

  function Prefixes(path: Path): set<Path> {
    set k | 0 <= k <= |path| :: path[..k]
  }

  predicate Below(p: Path, q: Path) {
    |p| < |q| && q[..|p|] == p
  }

  /** mkdir(parents=True, exist_ok=True): None when a file is in the way. */
  function MakeDirs(tree: Tree, path: Path): Option<Tree> {
    if exists p :: p in Prefixes(path) && p in tree.files then None else Some(tree.(dirs := tree.dirs + Prefixes(path)))
  }

  /** open("wb"): None on a directory. */
  function WriteFile(tree: Tree, path: Path, data: seq<Byte>): Option<Tree> {
    if path in tree.dirs then None else Some(tree.(files := tree.files[path := data]))
  }

  function Place(tree: Tree, path: Path, kind: Kind, data: seq<Byte>): Option<Tree> {
    if kind.Directory? then MakeDirs(tree, path)
    else if kind.Regular? then
      if path == [] then None
      else
        var parent := MakeDirs(tree, path[..|path| - 1]);
        if parent.None? then None else WriteFile(parent.value, path, data)
    else Some(tree)
  }

  // ---------------------------------------------------------------- installing

  datatype Limits = Limits(maxFiles: nat, maxBytes: nat)

  datatype InstallError =
    | DigestMismatch | Unreadable | TooManyEntries | ForbiddenKind | UnsafePath
    | DuplicatePath | TooLarge | CannotWrite | NoManifest

  datatype Progress = Progress(count: nat, total: nat, names: set<Path>, tree: Tree)

  function Start(): Progress {
    Progress(0, 0, {}, Tree(map[], {[]}))
  }

  predicate Safe(name: string) {
    (name == "" || name[0] != '/') && ".." !in PartsOf(name)
  }

  function Size(e: Entry): nat {
    if e.kind.Regular? then |e.data| else 0
  }

  /** One round of the loop. */
  function Advance(limits: Limits, p: Progress, e: Entry): Result<Progress, InstallError> {
    if p.count + 1 > limits.maxFiles then Err(TooManyEntries)
    else if e.kind.Link? || e.kind.Device? then Err(ForbiddenKind)
    else if !Safe(e.name) then Err(UnsafePath)
    else if PartsOf(e.name) in p.names then Err(DuplicatePath)
    else if e.kind.Regular? && p.total + |e.data| > limits.maxBytes then Err(TooLarge)
    else
      var tree := Place(p.tree, PartsOf(e.name), e.kind, e.data);
      if tree.None? then Err(CannotWrite)
      else Ok(Progress(p.count + 1, p.total + Size(e), p.names + {PartsOf(e.name)}, tree.value))
  }

  function AdvanceAll(limits: Limits, entries: seq<Entry>): Result<Progress, InstallError> {
    if entries == [] then Ok(Start())
    else
      var last := |entries| - 1;
      var before := AdvanceAll(limits, entries[..last]);
      if before.Err? then before else Advance(limits, before.value, entries[last])
  }

  const MANIFEST: Path := ["operator.json"]

  /** The tree that is moved to the target; on any error there is none. */
  function Unpack(limits: Limits, entries: seq<Entry>): Result<Tree, InstallError> {
    var p := AdvanceAll(limits, entries);
    if p.Err? then Err(p.error)
    else if MANIFEST !in p.value.tree.files then Err(NoManifest)
    else Ok(p.value.tree)
  }

  // ---------------------------------------------------------------- packing

  function ManifestEntry(manifest: seq<Byte>): Entry {
    Entry("operator.json", Regular, manifest)
  }

  predicate ProperFiles(files: map<Path, seq<Byte>>) {
    && (forall p :: p in files ==> ProperPath(p))
    && (forall p, q :: p in files && q in files ==> !Below(p, q))
  }

  function Joined(files: map<Path, seq<Byte>>): set<string> {
    set p | p in files :: Join(p)
  }

  function ArchiveNames(files: map<Path, seq<Byte>>): seq<string> {
    Sorted(Joined(files))
  }

  /** _deterministic_archive: the files in name order, then the manifest. */
  function Pack(files: map<Path, seq<Byte>>, manifest: seq<Byte>): seq<Entry>
    requires ProperFiles(files)
  {
    var names := ArchiveNames(files);
    assert forall i :: 0 <= i < |names| ==> PartsOf(names[i]) in files by { NamesLeadBack(files); }
    seq(|names|, i requires 0 <= i < |names| => Entry(names[i], Regular, files[PartsOf(names[i])]))
      + [ManifestEntry(manifest)]
  }

  lemma NamesLeadBack(files: map<Path, seq<Byte>>)
    requires ProperFiles(files)
    ensures forall i :: 0 <= i < |ArchiveNames(files)| ==>
      PartsOf(ArchiveNames(files)[i]) in files && Join(PartsOf(ArchiveNames(files)[i])) == ArchiveNames(files)[i]
  {
    var names := ArchiveNames(files);
    forall i | 0 <= i < |names| ensures PartsOf(names[i]) in files && Join(PartsOf(names[i])) == names[i] {
      assert names[i] in Joined(files);
      var p :| p in files && Join(p) == names[i];
      NameLeadsBack(p);
    }
  }

  // ---------------------------------------------------------------- the materializer

  /** The directory of installed releases. */
  class ReleaseMaterializer {
    const limits: Limits
    var targets: map<string, Tree>

    constructor (limits: Limits)
      ensures this.limits == limits && targets == map[]
    {
      this.limits := limits;
      targets := map[];
    }

    /** install: entry by entry into staging, which becomes the target only at the very end. */
    method Install(releaseId: string, expected: string, actual: string,
                   artifact: Option<seq<Entry>>) returns (r: Result<Tree, InstallError>)
      modifies this
      ensures releaseId in old(targets) ==> targets == old(targets)
      ensures r.Ok? ==> targets == old(targets)[releaseId := r.value]
      ensures r.Err? ==> targets == old(targets)
      ensures r == if actual != expected then Err(DigestMismatch)
        else if releaseId in old(targets) then Ok(old(targets)[releaseId])
        else if artifact.None? then Err(Unreadable)
        else Unpack(limits, artifact.value)
    {
      if actual != expected { return Err(DigestMismatch); }
      if releaseId in targets { return Ok(targets[releaseId]); }
      if artifact.None? { return Err(Unreadable); }
      r := Stage(limits, artifact.value);
      if r.Ok? { targets := targets[releaseId := r.value]; }
    }
  }

  /** The loop of install, entry by entry, and the check for a manifest after it. */
  method Stage(limits: Limits, entries: seq<Entry>) returns (r: Result<Tree, InstallError>)
    ensures r == Unpack(limits, entries)
  {
    hide Place, PartsOf, Safe;
    var count: nat, total: nat, names: set<Path>, staging := 0, 0, {}, Tree(map[], {[]});
    for i := 0 to |entries|
      invariant AdvanceAll(limits, entries[..i]) == Ok(Progress(count, total, names, staging))
    {
      var e := entries[i];
      StopsAt(limits, entries, i);
      count := count + 1;
      if count > limits.maxFiles { return Err(TooManyEntries); }
      if e.kind.Link? || e.kind.Device? { return Err(ForbiddenKind); }
      if !Safe(e.name) { return Err(UnsafePath); }
      var path := PartsOf(e.name);
      if path in names { return Err(DuplicatePath); }
      names := names + {path};
      if e.kind.Regular? {
        total := total + |e.data|;
        if total > limits.maxBytes { return Err(TooLarge); }
      }
      var placed := Place(staging, path, e.kind, e.data);
      if placed.None? { return Err(CannotWrite); }
      staging := placed.value;
    }
    assert entries[..|entries|] == entries;
    if MANIFEST !in staging.files { return Err(NoManifest); }
    r := Ok(staging);
  }

  lemma StopsAt(limits: Limits, entries: seq<Entry>, i: nat)
    requires i < |entries| && AdvanceAll(limits, entries[..i]).Ok?
    ensures var next := Advance(limits, AdvanceAll(limits, entries[..i]).value, entries[i]);
      && AdvanceAll(limits, entries[..i + 1]) == next
      && (next.Err? ==> AdvanceAll(limits, entries) == next)
  {
    hide Advance;
    assert entries[..i + 1][..i] == entries[..i];
    StopsAtFirstError(limits, entries, i + 1);
  }

  lemma {:induction false} StopsAtFirstError(limits: Limits, entries: seq<Entry>, i: nat)
    requires i <= |entries|
    ensures AdvanceAll(limits, entries[..i]).Err? ==> AdvanceAll(limits, entries) == AdvanceAll(limits, entries[..i])
    decreases |entries|
  {
    if i == |entries| {
      assert entries[..i] == entries;
    } else {
      var rest := entries[..|entries| - 1];
      assert rest[..i] == entries[..i];
      StopsAtFirstError(limits, rest, i);
    }
  }
}
