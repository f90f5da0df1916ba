/** Which archives install, what they install, and that packing then installing gives the source back. */
module ArchiveTheorems {
  import opened Prelude
  import opened Names
  import opened Archive

  // ---------------------------------------------------------------- which archives install

  /** No link and no device, not an absolute name, nowhere out of the tree, and a file has a name. */
  predicate Admissible(e: Entry) {
    && e.kind != Link && e.kind != Device
    && (e.name != "" ==> e.name[0] != '/') && ".." !in PartsOf(e.name) && (e.kind == Regular ==> PartsOf(e.name) != [])
  }

  /** A file where the other entry needs a directory. */
  predicate Blocks(a: Entry, b: Entry) {
    a.kind.Regular? && (b.kind.Regular? || b.kind.Directory?) && Below(PartsOf(a.name), PartsOf(b.name))
  }

  function TotalSize(entries: seq<Entry>): nat {
    if entries == [] then 0
    else
      var last := |entries| - 1;
      TotalSize(entries[..last]) + if entries[last].kind == Regular then |entries[last].data| else 0
  }

  predicate Compatible(a: Entry, b: Entry) {
    PartsOf(a.name) != PartsOf(b.name) && !Blocks(a, b) && !Blocks(b, a)
  }

  /** Said of the archive as a whole, in no particular order. */
  predicate Installable(limits: Limits, entries: seq<Entry>) {
    && |entries| <= limits.maxFiles && TotalSize(entries) <= limits.maxBytes
    && (forall i :: 0 <= i < |entries| ==> Admissible(entries[i]))
    && (forall i, j :: 0 <= i < j < |entries| ==> Compatible(entries[i], entries[j]))
  }

  predicate Fits(limits: Limits, entries: seq<Entry>, e: Entry) {
    && |entries| + 1 <= limits.maxFiles && TotalSize(entries) + Size(e) <= limits.maxBytes && Admissible(e)
    && forall i :: 0 <= i < |entries| ==> Compatible(entries[i], e)
  }

  lemma InstallableGrows(limits: Limits, entries: seq<Entry>, e: Entry)
    ensures Installable(limits, entries + [e]) <==> Installable(limits, entries) && Fits(limits, entries, e)
  {
    hide Compatible, Admissible;
    var all := entries + [e];
    assert all[..|all| - 1] == entries;
    if Installable(limits, all) {
      forall i, j | 0 <= i < j < |entries| ensures Compatible(entries[i], entries[j]) {
        assert all[i] == entries[i] && all[j] == entries[j];
      }
      forall i | 0 <= i < |entries| ensures Admissible(entries[i]) && Compatible(entries[i], e) {
        assert all[i] == entries[i] && all[|entries|] == e;
      }
      assert Admissible(all[|entries|]);
    }
  }

  // ---------------------------------------------------------------- what has been installed

  predicate MakesDir(e: Entry, p: Path) {
    || (e.kind.Regular? && Below(p, PartsOf(e.name)))
    || (e.kind.Directory? && (p == PartsOf(e.name) || Below(p, PartsOf(e.name))))
  }

  predicate NamesAre(names: set<Path>, entries: seq<Entry>) {
    && (forall i :: 0 <= i < |entries| ==> PartsOf(entries[i].name) in names)
    && (forall p :: p in names ==> exists i :: 0 <= i < |entries| && PartsOf(entries[i].name) == p)
  }

  predicate Writes(e: Entry, p: Path, data: seq<Byte>) {
    e.kind.Regular? && PartsOf(e.name) == p && e.data == data
  }

  /** The files are those of the archive, byte for byte, and no others. */
  predicate FilesAre(files: map<Path, seq<Byte>>, entries: seq<Entry>) {
    && (forall i :: 0 <= i < |entries| && entries[i].kind.Regular? ==>
          PartsOf(entries[i].name) in files && files[PartsOf(entries[i].name)] == entries[i].data)
    && (forall p :: p in files ==> exists i :: 0 <= i < |entries| && Writes(entries[i], p, files[p]))
  }

  ghost predicate Accounts(p: Progress, entries: seq<Entry>) {
    && p.count == |entries| && p.total == TotalSize(entries)
    && NamesAre(p.names, entries) && FilesAre(p.tree.files, entries) && DirsAre(p.tree.dirs, entries)
  }

  ghost predicate DirsAre(dirs: set<Path>, entries: seq<Entry>) {
    && [] in dirs
    && (forall i, p :: 0 <= i < |entries| && MakesDir(entries[i], p) ==> p in dirs)
    && (forall p :: p in dirs ==> p == [] || exists i :: 0 <= i < |entries| && MakesDir(entries[i], p))
  }

  lemma InPrefixes(p: Path, q: Path)
    ensures p in Prefixes(q) <==> p == q || Below(p, q)
  {
    if p == q { assert q[..|q|] == q; }
    if Below(p, q) { assert q[..|p|] in Prefixes(q); }
  }

  lemma ParentPrefixes(p: Path, q: Path)
    requires q != []
    ensures p in Prefixes(q[..|q| - 1]) <==> Below(p, q)
  {
    InPrefixes(p, q[..|q| - 1]);
    if Below(p, q) { assert |p| < |q| - 1 ==> q[..|q| - 1][..|p|] == p; }
    if Below(p, q[..|q| - 1]) { assert q[..|p|] == p; }
  }

  /** Nothing placed so far is in the way of the entry, nor the entry in the way of anything placed. */
  predicate Clear(tree: Tree, e: Entry) {
    var path := PartsOf(e.name);
    && (e.kind.Regular? || e.kind.Directory? ==> forall p :: p in tree.files ==> !Below(p, path))
    && (e.kind.Regular? ==> path !in tree.dirs)
  }

  lemma MakeDirsClear(tree: Tree, path: Path)
    requires path !in tree.files
    ensures MakeDirs(tree, path).Some? <==> forall p :: p in tree.files ==> !Below(p, path)
  {
    forall p ensures p in Prefixes(path) <==> p == path || Below(p, path) { InPrefixes(p, path); }
  }

  lemma MakeParentsClear(tree: Tree, path: Path)
    requires path != []
    ensures MakeDirs(tree, path[..|path| - 1]).Some? <==> forall p :: p in tree.files ==> !Below(p, path)
    ensures path !in Prefixes(path[..|path| - 1])
  {
    forall p ensures p in Prefixes(path[..|path| - 1]) <==> Below(p, path) { ParentPrefixes(p, path); }
  }

  lemma PlaceClear(tree: Tree, e: Entry)
    requires [] in tree.dirs && PartsOf(e.name) !in tree.files
    ensures Place(tree, PartsOf(e.name), e.kind, e.data).Some? <==> Clear(tree, e)
  {
    hide PartsOf, Prefixes;
    var path := PartsOf(e.name);
    MakeDirsClear(tree, path);
    if path != [] { MakeParentsClear(tree, path); }
  }

  lemma BlockedIsNotClear(tree: Tree, entries: seq<Entry>, e: Entry, i: nat)
    requires FilesAre(tree.files, entries) && DirsAre(tree.dirs, entries)
    requires i < |entries| && PartsOf(entries[i].name) != PartsOf(e.name) && !Compatible(entries[i], e)
    ensures !Clear(tree, e)
  {
    hide PartsOf;
    if Blocks(entries[i], e) {
      assert PartsOf(entries[i].name) in tree.files;
    } else {
      assert MakesDir(entries[i], PartsOf(e.name));
    }
  }

  lemma ObstacleIsAnEntry(tree: Tree, entries: seq<Entry>, e: Entry) returns (i: nat)
    requires FilesAre(tree.files, entries) && DirsAre(tree.dirs, entries) && !Clear(tree, e)
    requires e.kind.Regular? ==> PartsOf(e.name) != []
    ensures i < |entries| && !Compatible(entries[i], e)
  {
    hide PartsOf;
    var path := PartsOf(e.name);
    if e.kind.Regular? && path in tree.dirs {
      i :| 0 <= i < |entries| && MakesDir(entries[i], path);
    } else {
      var p :| p in tree.files && Below(p, path);
      i :| 0 <= i < |entries| && Writes(entries[i], p, tree.files[p]);
    }
  }

  lemma ClearIsCompatible(tree: Tree, entries: seq<Entry>, e: Entry)
    requires FilesAre(tree.files, entries) && DirsAre(tree.dirs, entries) && (e.kind.Regular? ==> PartsOf(e.name) != [])
    requires forall i :: 0 <= i < |entries| ==> PartsOf(entries[i].name) != PartsOf(e.name)
    ensures Clear(tree, e) <==> forall i :: 0 <= i < |entries| ==> Compatible(entries[i], e)
  {
    hide PartsOf, Clear, Compatible, FilesAre, DirsAre;
    if !Clear(tree, e) {
      var i := ObstacleIsAnEntry(tree, entries, e);
    } else if i :| 0 <= i < |entries| && !Compatible(entries[i], e) {
      BlockedIsNotClear(tree, entries, e, i);
    }
  }

  /** The loop goes on exactly when the entry fits what came before. */
  lemma AdvanceFits(limits: Limits, p: Progress, entries: seq<Entry>, e: Entry)
    requires Accounts(p, entries) && TotalSize(entries) <= limits.maxBytes
    ensures Advance(limits, p, e).Ok? <==> Fits(limits, entries, e)
  {
    hide PartsOf, FilesAre, DirsAre, Place, Clear, TotalSize, Compatible;
    if PartsOf(e.name) in p.names {
      var i :| 0 <= i < |entries| && PartsOf(entries[i].name) == PartsOf(e.name);
      NotCompatible(entries[i], e);
    } else {
      NoFileOf(p.names, p.tree.files, entries, PartsOf(e.name));
      RootIsDir(p.tree.dirs, entries);
      PlaceClear(p.tree, e);
      RegularNeedsPath(p.tree, e);
      if e.kind.Regular? ==> PartsOf(e.name) != [] { ClearIsCompatible(p.tree, entries, e); }
    }
  }

  lemma NotCompatible(a: Entry, b: Entry)
    requires PartsOf(a.name) == PartsOf(b.name)
    ensures !Compatible(a, b)
  {
  }

  lemma NoFileOf(names: set<Path>, files: map<Path, seq<Byte>>, entries: seq<Entry>, p: Path)
    requires NamesAre(names, entries) && FilesAre(files, entries) && p !in names
    ensures p !in files && forall i :: 0 <= i < |entries| ==> PartsOf(entries[i].name) != p
  {
  }

  lemma RootIsDir(dirs: set<Path>, entries: seq<Entry>)
    requires DirsAre(dirs, entries)
    ensures [] in dirs
  {
  }

  lemma RegularNeedsPath(tree: Tree, e: Entry)
    requires [] in tree.dirs
    ensures Clear(tree, e) && e.kind.Regular? ==> PartsOf(e.name) != []
  {
  }

  lemma AdvanceAccounts(limits: Limits, p: Progress, entries: seq<Entry>, e: Entry)
    requires Accounts(p, entries) && Advance(limits, p, e).Ok?
    ensures Accounts(Advance(limits, p, e).value, entries + [e])
  {
    hide PartsOf, Safe, FilesAre, DirsAre, NamesAre, Place;
    var q := Advance(limits, p, e).value;
    assert (entries + [e])[..|entries|] == entries;
    NamesGrow(p.names, entries, e);
    assert PartsOf(e.name) !in p.tree.files by { NoFileOf(p.names, p.tree.files, entries, PartsOf(e.name)); }
    PlaceFiles(p.tree, entries, e);
    PlaceDirs(p.tree, entries, e);
  }

  lemma NamesGrow(names: set<Path>, entries: seq<Entry>, e: Entry)
    requires NamesAre(names, entries)
    ensures NamesAre(names + {PartsOf(e.name)}, entries + [e])
  {
    hide PartsOf;
    var all := entries + [e];
    forall p | p in names + {PartsOf(e.name)} ensures exists i :: 0 <= i < |all| && PartsOf(all[i].name) == p {
      if p in names {
        var i :| 0 <= i < |entries| && PartsOf(entries[i].name) == p;
        assert all[i] == entries[i];
      } else {
        assert all[|entries|] == e;
      }
    }
  }

  lemma PlaceFiles(tree: Tree, entries: seq<Entry>, e: Entry)
    requires FilesAre(tree.files, entries) && PartsOf(e.name) !in tree.files
    requires Place(tree, PartsOf(e.name), e.kind, e.data).Some?
    ensures FilesAre(Place(tree, PartsOf(e.name), e.kind, e.data).value.files, entries + [e])
  {
    hide PartsOf, Prefixes;
    var all := entries + [e];
    var files := Place(tree, PartsOf(e.name), e.kind, e.data).value.files;
    assert files == if e.kind.Regular? then tree.files[PartsOf(e.name) := e.data] else tree.files;
    forall p | p in files ensures exists i :: 0 <= i < |all| && Writes(all[i], p, files[p]) {
      if p in tree.files {
        var i :| 0 <= i < |entries| && Writes(entries[i], p, tree.files[p]);
        assert all[i] == entries[i];
      } else {
        assert Writes(all[|entries|], p, files[p]);
      }
    }
  }

  lemma PlaceDirs(tree: Tree, entries: seq<Entry>, e: Entry)
    requires DirsAre(tree.dirs, entries) && Place(tree, PartsOf(e.name), e.kind, e.data).Some?
    ensures DirsAre(Place(tree, PartsOf(e.name), e.kind, e.data).value.dirs, entries + [e])
  {
    hide PartsOf, Prefixes;
    var all, path := entries + [e], PartsOf(e.name);
    var dirs := Place(tree, path, e.kind, e.data).value.dirs;
    forall p ensures p in dirs <==> p in tree.dirs || MakesDir(e, p) {
      InPrefixes(p, path);
      if path != [] { ParentPrefixes(p, path); }
    }
    forall p | p in dirs && p != [] ensures exists i :: 0 <= i < |all| && MakesDir(all[i], p) {
      if MakesDir(e, p) {
        assert all[|entries|] == e;
      } else {
        var i :| 0 <= i < |entries| && MakesDir(entries[i], p);
        assert all[i] == entries[i];
      }
    }
  }

  /**
   * An archive goes through the loop exactly when it is installable as a whole, and what it
   * leaves in staging is exactly its files and their directories, within both limits.
   */
  lemma {:induction false} AdvanceAllSpec(limits: Limits, entries: seq<Entry>)
    ensures AdvanceAll(limits, entries).Ok? <==> Installable(limits, entries)
    ensures AdvanceAll(limits, entries).Ok? ==> Accounts(AdvanceAll(limits, entries).value, entries)
    decreases |entries|
  {
    hide Accounts, Installable, Fits, Advance;
    if entries == [] {
      EmptyInstalls(limits);
    } else {
      var last := |entries| - 1;
      var rest, e := entries[..last], entries[last];
      assert entries == rest + [e];
      AdvanceAllSpec(limits, rest);
      InstallableGrows(limits, rest, e);
      if AdvanceAll(limits, rest).Ok? {
        WithinBytes(limits, rest);
        AdvanceFits(limits, AdvanceAll(limits, rest).value, rest, e);
        if AdvanceAll(limits, entries).Ok? { AdvanceAccounts(limits, AdvanceAll(limits, rest).value, rest, e); }
      }
    }
  }

  lemma EmptyInstalls(limits: Limits)
    ensures Installable(limits, []) && Accounts(Start(), [])
  {
  }

  lemma WithinBytes(limits: Limits, entries: seq<Entry>)
    requires Installable(limits, entries)
    ensures TotalSize(entries) <= limits.maxBytes
  {
  }

  // ---------------------------------------------------------------- any archive

  /**
   * Installing succeeds exactly for an installable archive with a manifest at its top. What
   * gets installed is exactly the archive's files, all of them strictly inside the release.
   */
  lemma InstallSpec(limits: Limits, entries: seq<Entry>)
    ensures Unpack(limits, entries).Ok? <==>
      Installable(limits, entries) && exists i ::
        0 <= i < |entries| && entries[i].kind.Regular? && PartsOf(entries[i].name) == ["operator.json"]
    ensures Unpack(limits, entries).Ok? ==>
      var tree := Unpack(limits, entries).value;
      && FilesAre(tree.files, entries) && DirsAre(tree.dirs, entries)
      && (forall p :: p in tree.files ==> p != [] && ".." !in p)
      && (forall i :: 0 <= i < |entries| ==> entries[i].name != "" ==> entries[i].name[0] != '/')
  {
    hide PartsOf, AdvanceAll;
    AdvanceAllSpec(limits, entries);
    if AdvanceAll(limits, entries).Ok? {
      var files := AdvanceAll(limits, entries).value.tree.files;
      forall p | p in files ensures p != [] && ".." !in p {
        var i :| 0 <= i < |entries| && Writes(entries[i], p, files[p]);
        assert Admissible(entries[i]);
      }
    }
  }

  // ---------------------------------------------------------------- why an archive is refused

  predicate Escapes(e: Entry) {
    (e.name != "" && e.name[0] == '/') || ".." in PartsOf(e.name)
  }

  /** Two entries of one path. */
  predicate Repeats(entries: seq<Entry>) {
    exists i, j :: 0 <= i < j < |entries| && PartsOf(entries[i].name) == PartsOf(entries[j].name)
  }

  /** A file without a name, or a file where another entry needs a directory. */
  predicate Obstructs(entries: seq<Entry>) {
    || (exists i :: 0 <= i < |entries| && entries[i].kind == Regular && PartsOf(entries[i].name) == [])
    || (exists i, j :: 0 <= i < |entries| && 0 <= j < |entries| && Blocks(entries[i], entries[j]))
  }

  /** The reason that an error gives is a fact about the archive. */
  predicate Justified(limits: Limits, entries: seq<Entry>, error: InstallError) {
    match error
    case TooManyEntries => |entries| > limits.maxFiles
    case ForbiddenKind => exists i :: 0 <= i < |entries| && (entries[i].kind == Link || entries[i].kind == Device)
    case UnsafePath => exists i :: 0 <= i < |entries| && Escapes(entries[i])
    case DuplicatePath => Repeats(entries)
    case TooLarge => TotalSize(entries) > limits.maxBytes
    case CannotWrite => Obstructs(entries)
    case NoManifest => forall i :: 0 <= i < |entries| && entries[i].kind == Regular ==>
      PartsOf(entries[i].name) != ["operator.json"]
    case _ => false
  }

  lemma JustifiedLater(limits: Limits, rest: seq<Entry>, e: Entry, error: InstallError)
    requires Justified(limits, rest, error) && error != NoManifest
    ensures Justified(limits, rest + [e], error)
  {
    hide Blocks;
    var all := rest + [e];
    assert all[..|rest|] == rest && forall i :: 0 <= i < |rest| ==> all[i] == rest[i];
    if error == ForbiddenKind {
      var i :| 0 <= i < |rest| && (rest[i].kind == Link || rest[i].kind == Device);
      assert all[i] == rest[i];
    } else if error == UnsafePath {
      var i :| 0 <= i < |rest| && Escapes(rest[i]);
      assert all[i] == rest[i];
    } else if error == DuplicatePath {
      var i, j :| 0 <= i < j < |rest| && PartsOf(rest[i].name) == PartsOf(rest[j].name);
      assert PartsOf(all[i].name) == PartsOf(all[j].name);
    } else if error == CannotWrite {
      ObstructsLater(rest, e);
    }
  }

  lemma ObstructsLater(rest: seq<Entry>, e: Entry)
    requires Obstructs(rest)
    ensures Obstructs(rest + [e])
  {
    hide Blocks;
    var all := rest + [e];
    if i :| 0 <= i < |rest| && rest[i].kind == Regular && PartsOf(rest[i].name) == [] {
      assert all[i] == rest[i];
    } else {
      var i, j :| 0 <= i < |rest| && 0 <= j < |rest| && Blocks(rest[i], rest[j]);
      assert Blocks(all[i], all[j]);
    }
  }

  lemma DuplicateJustified(p: Progress, entries: seq<Entry>, e: Entry)
    requires NamesAre(p.names, entries) && PartsOf(e.name) in p.names
    ensures Repeats(entries + [e])
  {
    hide PartsOf;
    var all := entries + [e];
    var i :| 0 <= i < |entries| && PartsOf(entries[i].name) == PartsOf(e.name);
    assert all[i] == entries[i] && all[|entries|] == e;
  }

  lemma UnfitObstructs(limits: Limits, p: Progress, entries: seq<Entry>, e: Entry)
    requires NamesAre(p.names, entries) && PartsOf(e.name) !in p.names && !Fits(limits, entries, e)
    requires |entries| + 1 <= limits.maxFiles && e.kind != Link && e.kind != Device && !Escapes(e)
    requires TotalSize(entries) + Size(e) <= limits.maxBytes
    ensures Obstructs(entries + [e])
  {
    hide PartsOf, Blocks, TotalSize;
    var all := entries + [e];
    assert all[|entries|] == e && forall i :: 0 <= i < |entries| ==> all[i] == entries[i];
    if e.kind != Regular || PartsOf(e.name) != [] {
      assert Admissible(e);
      var i :| 0 <= i < |entries| && !Compatible(entries[i], e);
      assert PartsOf(entries[i].name) in p.names;
      assert Blocks(all[i], all[|entries|]) || Blocks(all[|entries|], all[i]);
    }
  }

  lemma AdvanceJustified(limits: Limits, p: Progress, entries: seq<Entry>, e: Entry)
    requires Accounts(p, entries) && TotalSize(entries) <= limits.maxBytes && Advance(limits, p, e).Err?
    ensures Advance(limits, p, e).error != NoManifest
    ensures Justified(limits, entries + [e], Advance(limits, p, e).error)
  {
    hide PartsOf, FilesAre, DirsAre, NamesAre, Place, Fits, Obstructs, Repeats;
    var (all, error) := (entries + [e], Advance(limits, p, e).error);
    assert all[..|entries|] == entries && all[|entries|] == e;
    AdvanceFits(limits, p, entries, e);
    if error == DuplicatePath {
      DuplicateJustified(p, entries, e);
    } else if error == CannotWrite {
      UnfitObstructs(limits, p, entries, e);
    }
  }

  lemma {:induction false} LoopJustified(limits: Limits, entries: seq<Entry>)
    requires AdvanceAll(limits, entries).Err?
    ensures AdvanceAll(limits, entries).error != NoManifest
    ensures Justified(limits, entries, AdvanceAll(limits, entries).error)
    decreases |entries|
  {
    hide Accounts, Installable, Advance, Justified;
    var last := |entries| - 1;
    var (rest, e) := (entries[..last], entries[last]);
    assert entries == rest + [e];
    if AdvanceAll(limits, rest).Err? {
      LoopJustified(limits, rest);
      JustifiedLater(limits, rest, e, AdvanceAll(limits, rest).error);
    } else {
      AdvanceAllSpec(limits, rest);
      WithinBytes(limits, rest);
      AdvanceJustified(limits, AdvanceAll(limits, rest).value, rest, e);
    }
  }

  /** Whatever error installing reports, it is so. */
  lemma RefusalsAreJustified(limits: Limits, entries: seq<Entry>)
    requires Unpack(limits, entries).Err?
    ensures Justified(limits, entries, Unpack(limits, entries).error)
  {
    hide PartsOf, AdvanceAll, TotalSize, Blocks;
    if AdvanceAll(limits, entries).Err? {
      LoopJustified(limits, entries);
    } else {
      AdvanceAllSpec(limits, entries);
      hide Installable, DirsAre, NamesAre;
    }
  }

  // ---------------------------------------------------------------- packing, then installing

  /** The archive lists the files in the order of their names, each with its bytes, and the manifest last. */
  lemma PackedInOrder(files: map<Path, seq<Byte>>, manifest: seq<Byte>)
    requires ProperFiles(files)
    ensures var entries := Pack(files, manifest);
      && |entries| == |files| + 1 && entries[|files|] == Entry("operator.json", Regular, manifest)
      && (forall i, j :: 0 <= i < j < |files| ==> Before(entries[i].name, entries[j].name))
      && (forall i :: 0 <= i < |files| ==>
            entries[i].kind == Regular && PartsOf(entries[i].name) in files
              && entries[i].data == files[PartsOf(entries[i].name)])
  {
    hide PartsOf, Join, Before;
    PackedFiles(files, manifest);
    NamesLeadBack(files);
  }

  lemma ManifestName()
    ensures ProperPath(MANIFEST) && Join(MANIFEST) == "operator.json" && PartsOf("operator.json") == MANIFEST
  {
    NameLeadsBack(MANIFEST);
  }

  lemma {:induction false} JoinedSize(files: map<Path, seq<Byte>>)
    requires forall p :: p in files ==> ProperPath(p)
    ensures |Joined(files)| == |files|
    decreases |files|
  {
    hide Join, ProperPath;
    if files.Keys == {} {
      assert Joined(files) == {};
    } else {
      var p :| p in files;
      var rest := files - {p};
      JoinedSize(rest);
      assert files.Keys == rest.Keys + {p};
      forall q | q in rest ensures Join(q) != Join(p) {
        NameLeadsBack(p);
        NameLeadsBack(q);
      }
      assert Joined(files) == Joined(rest) + {Join(p)};
    }
  }

  /** The file entries of a packed tree, one for every file. */
  lemma PackedFiles(files: map<Path, seq<Byte>>, manifest: seq<Byte>)
    requires ProperFiles(files)
    ensures var entries := Pack(files, manifest);
      && |entries| == |files| + 1 && entries[|files|] == ManifestEntry(manifest)
      && (forall i :: 0 <= i < |files| ==>
            var p := PartsOf(entries[i].name);
            && entries[i].kind.Regular? && p in files && Join(p) == entries[i].name
            && entries[i].data == files[p])
      && (forall p :: p in files ==> exists i :: 0 <= i < |files| && PartsOf(entries[i].name) == p)
  {
    hide PartsOf, Join;
    JoinedSize(files);
    NamesLeadBack(files);
    var entries, names := Pack(files, manifest), ArchiveNames(files);
    forall p | p in files ensures exists i :: 0 <= i < |files| && PartsOf(entries[i].name) == p {
      assert Join(p) in Joined(files);
      var i :| 0 <= i < |names| && names[i] == Join(p);
      NameLeadsBack(p);
      assert entries[i].name == Join(p);
    }
  }

  lemma PackedDistinct(files: map<Path, seq<Byte>>, manifest: seq<Byte>, i: nat, j: nat)
    requires ProperFiles(files) && i < j < |files| && |Pack(files, manifest)| == |files| + 1
    ensures Pack(files, manifest)[i].name != Pack(files, manifest)[j].name
  {
    var names := ArchiveNames(files);
    assert Pack(files, manifest)[i].name == names[i] && Pack(files, manifest)[j].name == names[j];
    assert Before(names[i], names[j]);
    Irreflexive(names[i]);
  }

  lemma AdmissibleFile(e: Entry)
    requires e.kind.Regular? && ProperPath(PartsOf(e.name)) && Join(PartsOf(e.name)) == e.name
    ensures Admissible(e)
  {
    hide Join;
    var p := PartsOf(e.name);
    NameLeadsBack(p);
    forall i | 0 <= i < |p| ensures p[i] != ".." { assert ProperPart(p[i]); }
  }

  /** No source file, and no source directory, where the manifest goes. */
  predicate RoomForManifest(files: map<Path, seq<Byte>>) {
    forall p :: p in files ==> p != MANIFEST && !Below(MANIFEST, p)
  }

  /** Files never get in each other's way; one of them may be in the manifest's. */
  lemma FilesCompatible(files: map<Path, seq<Byte>>, a: Entry, b: Entry)
    requires ProperFiles(files) && PartsOf(a.name) in files && PartsOf(b.name) in files
    requires a.name != b.name && Join(PartsOf(a.name)) == a.name && Join(PartsOf(b.name)) == b.name
    ensures Compatible(a, b)
  {
    hide PartsOf, Join;
  }

  lemma ManifestCompatible(files: map<Path, seq<Byte>>, a: Entry, b: Entry)
    requires ProperFiles(files) && PartsOf(a.name) in files && a.kind.Regular? && b.kind.Regular?
    requires PartsOf(b.name) == MANIFEST
    ensures Compatible(a, b) <==> PartsOf(a.name) != MANIFEST && !Below(MANIFEST, PartsOf(a.name))
  {
    hide PartsOf, Join;
    assert ProperPath(PartsOf(a.name));
  }

  lemma PackedCompatible(files: map<Path, seq<Byte>>, manifest: seq<Byte>)
    requires ProperFiles(files)
    ensures var entries := Pack(files, manifest);
      (forall i, j :: 0 <= i < j < |entries| ==> Compatible(entries[i], entries[j])) <==> RoomForManifest(files)
  {
    hide PartsOf, Join, Pack, Compatible, ProperFiles;
    PackedFiles(files, manifest);
    ManifestName();
    var entries := Pack(files, manifest);
    forall i, j | 0 <= i < j < |files| ensures Compatible(entries[i], entries[j]) {
      PackedDistinct(files, manifest, i, j);
      FilesCompatible(files, entries[i], entries[j]);
    }
    forall i | 0 <= i < |files|
      ensures Compatible(entries[i], entries[|files|])
        <==> PartsOf(entries[i].name) != MANIFEST && !Below(MANIFEST, PartsOf(entries[i].name))
    {
      ManifestCompatible(files, entries[i], entries[|files|]);
    }
    if !RoomForManifest(files) {
      var p :| p in files && (p == MANIFEST || Below(MANIFEST, p));
      var i :| 0 <= i < |files| && PartsOf(entries[i].name) == p;
      assert !Compatible(entries[i], entries[|files|]);
    }
  }

  lemma PackedAdmissible(files: map<Path, seq<Byte>>, manifest: seq<Byte>)
    requires ProperFiles(files)
    ensures forall i :: 0 <= i < |Pack(files, manifest)| ==> Admissible(Pack(files, manifest)[i])
  {
    hide PartsOf, Join, Pack, Admissible, ProperPath;
    PackedFiles(files, manifest);
    ManifestName();
    var entries := Pack(files, manifest);
    forall i | 0 <= i < |entries| ensures Admissible(entries[i]) {
      AdmissibleFile(entries[i]);
    }
  }

  /**
   * Packing then installing gives the source back, plus its manifest. It works exactly when
   * the release is within both limits and the source leaves `operator.json` free.
   */
  lemma PackThenInstall(limits: Limits, files: map<Path, seq<Byte>>, manifest: seq<Byte>)
    requires ProperFiles(files)
    ensures var entries := Pack(files, manifest);
      Unpack(limits, entries).Ok? <==>
        |files| + 1 <= limits.maxFiles && TotalSize(entries) <= limits.maxBytes && RoomForManifest(files)
    ensures Unpack(limits, Pack(files, manifest)).Ok? ==>
      Unpack(limits, Pack(files, manifest)).value.files == files[MANIFEST := manifest]
  {
    hide PartsOf, Join, Pack, Admissible, Compatible, RoomForManifest, Unpack, ProperFiles, FilesAre, DirsAre;
    hide TotalSize;
    var entries := Pack(files, manifest);
    PackedFiles(files, manifest);
    PackedAdmissible(files, manifest);
    PackedCompatible(files, manifest);
    ManifestName();
    assert entries[|files|].kind.Regular? && PartsOf(entries[|files|].name) == MANIFEST;
    InstallSpec(limits, entries);
    if Unpack(limits, entries).Ok? {
      SameFiles(files, manifest, entries, Unpack(limits, entries).value.files);
    }
  }

  lemma SameFiles(files: map<Path, seq<Byte>>, manifest: seq<Byte>, entries: seq<Entry>,
                  installed: map<Path, seq<Byte>>)
    requires |entries| == |files| + 1 && entries[|files|] == ManifestEntry(manifest)
    requires PartsOf("operator.json") == MANIFEST
    requires forall i :: 0 <= i < |files| ==>
      var p := PartsOf(entries[i].name); entries[i].kind.Regular? && p in files && entries[i].data == files[p]
    requires forall p :: p in files ==> exists i :: 0 <= i < |files| && PartsOf(entries[i].name) == p
    requires FilesAre(installed, entries)
    ensures installed == files[MANIFEST := manifest]
  {
    hide PartsOf;
    var expected := files[MANIFEST := manifest];
    assert installed[PartsOf(entries[|files|].name)] == manifest;
    forall p | p in expected ensures p in installed && installed[p] == expected[p] {
      if p != MANIFEST {
        var i :| 0 <= i < |files| && PartsOf(entries[i].name) == p;
        assert installed[PartsOf(entries[i].name)] == entries[i].data;
      }
    }
    forall p | p in installed ensures p in expected {
      var i :| 0 <= i < |entries| && Writes(entries[i], p, installed[p]);
    }
  }
}
