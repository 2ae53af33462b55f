/** The include directive of internal/discovery/parser.go: resolving it recursively is one
    flat fold of merges. */
module Includes {
  import opened Merge
  import opened Options

  const MAX_DEPTH := 10

  type Environment = map<string, string>

  /** What the parser asks of the file system: joining paths, the directory of a path, the
      file that a path parses to under an environment (None when it is unreadable or no
      YAML), and an environment after the assignments of an env file. */
  datatype Files = Files(
    join: (string, string) -> string,
    dir: string -> string,
    parse: (string, Environment) -> Option<File>,
    assign: (string, Environment) -> Environment)

  datatype IncludeRef = IncludeRef(path: string, envFile: string)

  function EntryRefs(fs: Files, baseDir: string, entry: IncludeEntry): seq<IncludeRef> {
    match entry
    case PathEntry(text) => [IncludeRef(fs.join(baseDir, text), "")]
    case MapEntry(path, envFile) =>
      var ref := IncludeRef(if path.Some? then fs.join(baseDir, path.value) else "",
                            if envFile.Some? then fs.join(baseDir, envFile.value) else "");
      if ref.path != "" then [ref] else []
    case OtherEntry => []
  }

  function ListRefs(fs: Files, baseDir: string, entries: seq<IncludeEntry>): seq<IncludeRef> {
    if entries == [] then []
    else ListRefs(fs, baseDir, entries[..|entries| - 1]) + EntryRefs(fs, baseDir, entries[|entries| - 1])
  }

  function Refs(fs: Files, baseDir: string, raw: Include): seq<IncludeRef> {
    match raw
    case IncludeList(entries) => ListRefs(fs, baseDir, entries)
    case IncludeOne(text) => [IncludeRef(fs.join(baseDir, text), "")]
    case IncludeOther => []
  }

  // ----- what an include directive refers to -----

  /** The entry refers to a file: by its path, or by the path of a map with one, which may also
      name an env file. Both are joined to the directory. */
  ghost predicate EntryRefersTo(fs: Files, baseDir: string, entry: IncludeEntry, ref: IncludeRef) {
    match entry
    case PathEntry(text) => ref.path == fs.join(baseDir, text) && ref.envFile == ""
    case MapEntry(path, envFile) =>
      && path.Some? && ref.path == fs.join(baseDir, path.value) && ref.path != ""
      && (envFile.None? ==> ref.envFile == "")
      && (envFile.Some? ==> ref.envFile == fs.join(baseDir, envFile.value))
    case OtherEntry => false
  }

  ghost predicate RefersTo(fs: Files, baseDir: string, raw: Include, ref: IncludeRef) {
    match raw
    case IncludeList(entries) => exists i :: 0 <= i < |entries| && EntryRefersTo(fs, baseDir, entries[i], ref)
    case IncludeOne(text) => ref.path == fs.join(baseDir, text) && ref.envFile == ""
    case IncludeOther => false
  }

  ghost predicate Ascending(places: seq<nat>) {
    forall j, k :: 0 <= j < k < |places| ==> places[j] < places[k]
  }

  /** The references of a list: each is that of the entry at its place, the places ascend, and the
      entries elsewhere refer to nothing. */
  ghost predicate RefersInOrder(
    fs: Files, baseDir: string, entries: seq<IncludeEntry>, refs: seq<IncludeRef>, places: seq<nat>)
  {
    && |places| == |refs| && Ascending(places)
    && (forall k :: 0 <= k < |refs| ==>
          places[k] < |entries| && EntryRefersTo(fs, baseDir, entries[places[k]], refs[k]))
    && (forall i: nat :: i < |entries| && i !in places ==>
          forall ref :: !EntryRefersTo(fs, baseDir, entries[i], ref))
  }

  lemma EntryRefsAre(fs: Files, baseDir: string, entry: IncludeEntry)
    ensures var refs := EntryRefs(fs, baseDir, entry);
            if refs == [] then forall ref :: !EntryRefersTo(fs, baseDir, entry, ref)
            else |refs| == 1 && forall ref :: EntryRefersTo(fs, baseDir, entry, ref) <==> ref == refs[0]
  {
  }

  lemma {:induction false} ListRefsInOrder(fs: Files, baseDir: string, entries: seq<IncludeEntry>)
    returns (places: seq<nat>)
    ensures RefersInOrder(fs, baseDir, entries, ListRefs(fs, baseDir, entries), places)
  {
    if entries == [] {
      places := [];
    } else {
      var n := |entries| - 1;
      places := ListRefsInOrder(fs, baseDir, entries[..n]);
      EntryRefsAre(fs, baseDir, entries[n]);
      InOrderMore(fs, baseDir, entries[..n], entries[n], ListRefs(fs, baseDir, entries[..n]), places);
      assert entries == entries[..n] + [entries[n]];
      if EntryRefs(fs, baseDir, entries[n]) != [] {
        places := places + [n];
      }
    }
  }

  lemma InOrderMore(fs: Files, baseDir: string, before: seq<IncludeEntry>, last: IncludeEntry,
                    refs: seq<IncludeRef>, places: seq<nat>)
    requires RefersInOrder(fs, baseDir, before, refs, places)
    ensures (forall ref :: !EntryRefersTo(fs, baseDir, last, ref)) ==>
              RefersInOrder(fs, baseDir, before + [last], refs, places)
    ensures forall ref :: EntryRefersTo(fs, baseDir, last, ref) ==>
              RefersInOrder(fs, baseDir, before + [last], refs + [ref], places + [|before|])
  {
  }

  /** The references that are followed are those that the directive means. */
  lemma RefsIff(fs: Files, baseDir: string, raw: Include, ref: IncludeRef)
    ensures ref in Refs(fs, baseDir, raw) <==> RefersTo(fs, baseDir, raw, ref)
  {
    if raw.IncludeList? {
      var refs := Refs(fs, baseDir, raw);
      var places := ListRefsInOrder(fs, baseDir, raw.entries);
      if ref in refs {
        var k :| 0 <= k < |refs| && refs[k] == ref;
        assert EntryRefersTo(fs, baseDir, raw.entries[places[k]], ref);
      }
      if i :| 0 <= i < |raw.entries| && EntryRefersTo(fs, baseDir, raw.entries[i], ref) {
        assert i in places;
        var k :| 0 <= k < |places| && places[k] == i;
        EntryRefsAre(fs, baseDir, raw.entries[i]);
        assert refs[k] == ref;
      }
    }
  }

  function EnvironmentOf(fs: Files, ref: IncludeRef, env: Environment): Environment {
    if ref.envFile != "" then fs.assign(ref.envFile, env) else env
  }

  /** The references that a file at this depth has followed. */
  function Followed(fs: Files, baseDir: string, cf: File, depth: nat): (refs: seq<IncludeRef>)
    ensures depth > MAX_DEPTH ==> refs == []
  {
    if cf.include_.None? || depth > MAX_DEPTH then [] else Refs(fs, baseDir, cf.include_.value)
  }

  /** resolveIncludes, as a function of the file. */
  function Resolved(fs: Files, baseDir: string, cf: File, env: Environment, depth: nat): File
    decreases MAX_DEPTH + 1 - depth, 1, 0
  {
    if cf.include_.None? || depth > MAX_DEPTH then cf
    else WithIncluded(fs, cf, Refs(fs, baseDir, cf.include_.value), env, depth).(include_ := None)
  }

  function WithIncluded(fs: Files, cf: File, refs: seq<IncludeRef>, env: Environment, depth: nat): File
    requires depth <= MAX_DEPTH
    decreases MAX_DEPTH + 1 - depth, 0, |refs|
  {
    if refs == [] then cf
    else
      var before := WithIncluded(fs, cf, refs[..|refs| - 1], env, depth);
      match Included(fs, refs[|refs| - 1], env, depth)
      case None => before
      case Some(file) => MergeFiles(before, file)
  }

  function Included(fs: Files, ref: IncludeRef, env: Environment, depth: nat): Option<File>
    requires depth <= MAX_DEPTH
    decreases MAX_DEPTH - depth, 2, 0
  {
    var incEnv := EnvironmentOf(fs, ref, env);
    match fs.parse(ref.path, incEnv)
    case None => None
    case Some(file) => Some(Resolved(fs, fs.dir(ref.path), file, incEnv, depth + 1))
  }

  // ----- the flat fold -----

  /** The files of the include tree in preorder, down to the depth limit. */
  function Listing(fs: Files, baseDir: string, cf: File, env: Environment, depth: nat): (files: seq<File>)
    ensures files != []
    decreases MAX_DEPTH + 1 - depth, 1, 0
  {
    [cf] + if depth > MAX_DEPTH then [] else Listings(fs, Followed(fs, baseDir, cf, depth), env, depth)
  }

  function Listings(fs: Files, refs: seq<IncludeRef>, env: Environment, depth: nat): seq<File>
    requires depth <= MAX_DEPTH
    decreases MAX_DEPTH + 1 - depth, 0, |refs|
  {
    if refs == [] then []
    else Listings(fs, refs[..|refs| - 1], env, depth) + RefListing(fs, refs[|refs| - 1], env, depth)
  }

  function RefListing(fs: Files, ref: IncludeRef, env: Environment, depth: nat): seq<File>
    requires depth <= MAX_DEPTH
    decreases MAX_DEPTH - depth, 2, 0
  {
    var incEnv := EnvironmentOf(fs, ref, env);
    match fs.parse(ref.path, incEnv)
    case None => []
    case Some(file) => Listing(fs, fs.dir(ref.path), file, incEnv, depth + 1)
  }

  /** A left fold of merges. */
  function MergeAll(files: seq<File>): File
    requires files != []
  {
    if |files| == 1 then files[0] else MergeFiles(MergeAll(files[..|files| - 1]), files[|files| - 1])
  }

  lemma {:induction false} MergeAllConcat(a: seq<File>, b: seq<File>)
    requires a != [] && b != []
    ensures Alike(MergeAll(a + b), MergeFiles(MergeAll(a), MergeAll(b)))
  {
    var n := |b| - 1;
    assert (a + b)[..|a| + n] == a + b[..n];
    if n == 0 {
      assert a + b[..n] == a;
    } else {
      MergeAllConcat(a, b[..n]);
      MergeFilesAlike(MergeAll(a + b[..n]), MergeFiles(MergeAll(a), MergeAll(b[..n])), b[n], b[n]);
      MergeFilesAssociative(MergeAll(a), MergeAll(b[..n]), b[n]);
    }
  }

  /** Resolving includes recursively is, up to the form of environments and labels, one left
      fold of mergeInto over the files of the include tree in preorder. */
  lemma {:induction false} ResolvedIsFlatFold(fs: Files, baseDir: string, cf: File, env: Environment, depth: nat)
    ensures Alike(Resolved(fs, baseDir, cf, env, depth), MergeAll(Listing(fs, baseDir, cf, env, depth)))
    decreases MAX_DEPTH + 1 - depth, 1, 0
  {
    if depth <= MAX_DEPTH {
      WithIncludedIsFold(fs, cf, Followed(fs, baseDir, cf, depth), env, depth);
    }
  }

  lemma {:induction false} WithIncludedIsFold(
    fs: Files, cf: File, refs: seq<IncludeRef>, env: Environment, depth: nat)
    requires depth <= MAX_DEPTH
    ensures Alike(WithIncluded(fs, cf, refs, env, depth), MergeAll([cf] + Listings(fs, refs, env, depth)))
    decreases MAX_DEPTH + 1 - depth, 0, |refs|
  {
    if refs == [] {
    } else {
      var before, ref := refs[..|refs| - 1], refs[|refs| - 1];
      WithIncludedIsFold(fs, cf, before, env, depth);
      var listed, more := [cf] + Listings(fs, before, env, depth), RefListing(fs, ref, env, depth);
      assert [cf] + Listings(fs, refs, env, depth) == listed + more;
      var incEnv := EnvironmentOf(fs, ref, env);
      var parsed := fs.parse(ref.path, incEnv);
      if parsed.None? {
        assert listed + more == listed;
      } else {
        ResolvedIsFlatFold(fs, fs.dir(ref.path), parsed.value, incEnv, depth + 1);
        var file := Resolved(fs, fs.dir(ref.path), parsed.value, incEnv, depth + 1);
        MergeFilesAlike(WithIncluded(fs, cf, before, env, depth), MergeAll(listed), file, MergeAll(more));
        MergeAllConcat(listed, more);
      }
    }
  }

  // ----- which files are listed -----

  /** Following these references from a file arrives at another. Each is one of the file before it,
      and its env file, if it names one, adds to the environment under which it is read. */
  ghost predicate Leads(
    fs: Files, baseDir: string, cf: File, env: Environment, chain: seq<IncludeRef>, file: File)
    decreases |chain|
  {
    if chain == [] then file == cf
    else
      var incEnv := if chain[0].envFile == "" then env else fs.assign(chain[0].envFile, env);
      var next := fs.parse(chain[0].path, incEnv);
      && cf.include_.Some? && RefersTo(fs, baseDir, cf.include_.value, chain[0])
      && next.Some? && Leads(fs, fs.dir(chain[0].path), next.value, incEnv, chain[1..], file)
  }

  lemma {:induction false} SomeRefLists(fs: Files, refs: seq<IncludeRef>, env: Environment, depth: nat, file: File)
    returns (ref: IncludeRef)
    requires depth <= MAX_DEPTH && file in Listings(fs, refs, env, depth)
    ensures ref in refs && file in RefListing(fs, ref, env, depth)
  {
    var n := |refs| - 1;
    if file in Listings(fs, refs[..n], env, depth) {
      ref := SomeRefLists(fs, refs[..n], env, depth, file);
    } else {
      ref := refs[n];
    }
  }

  /** Place `k` of one reference's files among those of all references. */
  lemma {:induction false} RefIsListed(
    fs: Files, refs: seq<IncludeRef>, env: Environment, depth: nat, ref: IncludeRef, k: nat) returns (k': nat)
    requires depth <= MAX_DEPTH && ref in refs && k < |RefListing(fs, ref, env, depth)|
    ensures k' < |Listings(fs, refs, env, depth)|
    ensures Listings(fs, refs, env, depth)[k'] == RefListing(fs, ref, env, depth)[k]
  {
    var n := |refs| - 1;
    if ref != refs[n] {
      k' := RefIsListed(fs, refs[..n], env, depth, ref, k);
    } else {
      k' := |Listings(fs, refs[..n], env, depth)| + k;
    }
  }

  /** A file is merged exactly when some chain of readable includes leads to it that takes
      no more than eleven steps from the top, cycles included. */
  lemma ListedIff(fs: Files, baseDir: string, cf: File, env: Environment, depth: nat, file: File)
    requires depth <= 11
    ensures file in Listing(fs, baseDir, cf, env, depth) <==>
            exists chain :: |chain| + depth <= 11 && Leads(fs, baseDir, cf, env, chain, file)
  {
    if file in Listing(fs, baseDir, cf, env, depth) {
      var chain := ChainTo(fs, baseDir, cf, env, depth, file);
    }
    if chain :| |chain| + depth <= 11 && Leads(fs, baseDir, cf, env, chain, file) {
      var k := LeadsListed(fs, baseDir, cf, env, depth, chain, file);
    }
  }

  /** A file includes the next one, by this reference. */
  ghost predicate Step(
    fs: Files, baseDir: string, cf: File, env: Environment,
    ref: IncludeRef, dir: string, incEnv: Environment, next: File)
  {
    && cf.include_.Some? && ref in Refs(fs, baseDir, cf.include_.value)
    && dir == fs.dir(ref.path) && incEnv == EnvironmentOf(fs, ref, env) && fs.parse(ref.path, incEnv) == Some(next)
  }

  /** A file listed below the top is listed by some file that the top includes. */
  lemma ListedBelow(fs: Files, baseDir: string, cf: File, env: Environment, depth: nat, file: File)
    returns (ref: IncludeRef, dir: string, incEnv: Environment, next: File)
    requires file in Listing(fs, baseDir, cf, env, depth) && file != cf
    ensures depth <= MAX_DEPTH && Step(fs, baseDir, cf, env, ref, dir, incEnv, next)
    ensures file in Listing(fs, dir, next, incEnv, depth + 1)
  {
    ref := SomeRefLists(fs, Followed(fs, baseDir, cf, depth), env, depth, file);
    dir, incEnv := fs.dir(ref.path), EnvironmentOf(fs, ref, env);
    next := fs.parse(ref.path, incEnv).value;
  }

  lemma LeadsOneMore(
    fs: Files, baseDir: string, cf: File, env: Environment,
    ref: IncludeRef, dir: string, incEnv: Environment, next: File, rest: seq<IncludeRef>, file: File)
    requires Step(fs, baseDir, cf, env, ref, dir, incEnv, next) && Leads(fs, dir, next, incEnv, rest, file)
    ensures Leads(fs, baseDir, cf, env, [ref] + rest, file)
  {
    RefsIff(fs, baseDir, cf.include_.value, ref);
    assert ([ref] + rest)[1..] == rest;
  }

  lemma {:induction false} ChainTo(fs: Files, baseDir: string, cf: File, env: Environment, depth: nat, file: File)
    returns (chain: seq<IncludeRef>)
    requires depth <= MAX_DEPTH + 1 && file in Listing(fs, baseDir, cf, env, depth)
    ensures |chain| + depth <= MAX_DEPTH + 1
    ensures Leads(fs, baseDir, cf, env, chain, file)
    decreases MAX_DEPTH + 1 - depth
  {
    if file == cf {
      chain := [];
    } else {
      var ref, dir, incEnv, next := ListedBelow(fs, baseDir, cf, env, depth, file);
      var rest := ChainTo(fs, dir, next, incEnv, depth + 1, file);
      LeadsOneMore(fs, baseDir, cf, env, ref, dir, incEnv, next, rest, file);
      chain := [ref] + rest;
    }
  }

  lemma FirstStep(fs: Files, baseDir: string, cf: File, env: Environment, chain: seq<IncludeRef>, file: File)
    returns (ref: IncludeRef, dir: string, incEnv: Environment, next: File, rest: seq<IncludeRef>)
    requires Leads(fs, baseDir, cf, env, chain, file) && chain != []
    ensures Step(fs, baseDir, cf, env, ref, dir, incEnv, next)
    ensures Leads(fs, dir, next, incEnv, rest, file) && |rest| + 1 == |chain|
  {
    ref, rest := chain[0], chain[1..];
    RefsIff(fs, baseDir, cf.include_.value, ref);
    dir, incEnv := fs.dir(ref.path), EnvironmentOf(fs, ref, env);
    next := fs.parse(ref.path, incEnv).value;
  }

  lemma IncludedIsListed(
    fs: Files, baseDir: string, cf: File, env: Environment, depth: nat,
    ref: IncludeRef, dir: string, incEnv: Environment, next: File, k: nat) returns (k': nat)
    requires depth <= MAX_DEPTH && Step(fs, baseDir, cf, env, ref, dir, incEnv, next)
    requires k < |Listing(fs, dir, next, incEnv, depth + 1)|
    ensures k' < |Listing(fs, baseDir, cf, env, depth)|
    ensures Listing(fs, baseDir, cf, env, depth)[k'] == Listing(fs, dir, next, incEnv, depth + 1)[k]
  {
    k' := RefIsListed(fs, Followed(fs, baseDir, cf, depth), env, depth, ref, k);
    k' := k' + 1;
  }

  lemma {:induction false} LeadsListed(
    fs: Files, baseDir: string, cf: File, env: Environment, depth: nat, chain: seq<IncludeRef>, file: File)
    returns (k: nat)
    requires |chain| + depth <= MAX_DEPTH + 1
    requires Leads(fs, baseDir, cf, env, chain, file)
    ensures k < |Listing(fs, baseDir, cf, env, depth)| && Listing(fs, baseDir, cf, env, depth)[k] == file
    decreases |chain|
  {
    if chain == [] {
      k := 0;
    } else {
      var ref, dir, incEnv, next, rest := FirstStep(fs, baseDir, cf, env, chain, file);
      k := LeadsListed(fs, dir, next, incEnv, depth + 1, rest, file);
      k := IncludedIsListed(fs, baseDir, cf, env, depth, ref, dir, incEnv, next, k);
    }
  }

  // ----- the compose files of a project -----

  const EMPTY := File(map[], map[], map[], None)

  /** The project file that Parse builds, unless a top-level file is unreadable. */
  function Loaded(fs: Files, paths: seq<string>, env: Environment): Option<File> {
    if paths == [] then Some(EMPTY)
    else
      var path := paths[|paths| - 1];
      var merged, parsed := Loaded(fs, paths[..|paths| - 1], env), fs.parse(path, env);
      if merged.None? || parsed.None? then None
      else Some(MergeFiles(merged.value, Resolved(fs, fs.dir(path), parsed.value, env, 0)))
  }

  /** All the files that a project consists of, in the order of their precedence. */
  function ProjectListing(fs: Files, paths: seq<string>, env: Environment): seq<File> {
    if paths == [] then []
    else
      var path := paths[|paths| - 1];
      ProjectListing(fs, paths[..|paths| - 1], env) +
      match fs.parse(path, env)
      case None => []
      case Some(cf) => Listing(fs, fs.dir(path), cf, env, 0)
  }

  lemma LoadedStep(merged: File, listed: seq<File>, file: File, more: seq<File>)
    requires Alike(merged, MergeAll([EMPTY] + listed)) && more != [] && Alike(file, MergeAll(more))
    ensures Alike(MergeFiles(merged, file), MergeAll([EMPTY] + (listed + more)))
  {
    MergeFilesAlike(merged, MergeAll([EMPTY] + listed), file, MergeAll(more));
    MergeAllConcat([EMPTY] + listed, more);
    assert [EMPTY] + (listed + more) == ([EMPTY] + listed) + more;
  }

  /** A loaded project is one left fold of mergeInto over all its include trees. */
  lemma {:induction false} LoadedIsFlatFold(fs: Files, paths: seq<string>, env: Environment)
    requires Loaded(fs, paths, env).Some?
    ensures Alike(Loaded(fs, paths, env).value, MergeAll([EMPTY] + ProjectListing(fs, paths, env)))
  {
    if paths == [] {
      assert [EMPTY] + ProjectListing(fs, paths, env) == [EMPTY];
      assert MergeAll([EMPTY]) == EMPTY;
    } else {
      var before, path := paths[..|paths| - 1], paths[|paths| - 1];
      LoadedIsFlatFold(fs, before, env);
      var cf := fs.parse(path, env).value;
      ResolvedIsFlatFold(fs, fs.dir(path), cf, env, 0);
      LoadedStep(Loaded(fs, before, env).value, ProjectListing(fs, before, env),
                 Resolved(fs, fs.dir(path), cf, env, 0), Listing(fs, fs.dir(path), cf, env, 0));
    }
  }

  /** Loading succeeds exactly when the top-level files are readable: an unreadable include is
      skipped. */
  lemma {:induction false} LoadedIff(fs: Files, paths: seq<string>, env: Environment)
    ensures Loaded(fs, paths, env).Some? <==> forall path :: path in paths ==> fs.parse(path, env).Some?
  {
    if paths == [] {
    } else {
      assert paths == paths[..|paths| - 1] + [paths[|paths| - 1]];
      LoadedIff(fs, paths[..|paths| - 1], env);
    }
  }

  /** The definitions of a service, in order. */
  function Definitions(files: seq<File>, name: string): seq<Svc> {
    if files == [] then []
    else
      var last := files[|files| - 1];
      Definitions(files[..|files| - 1], name) + if name in last.services then [last.services[name]] else []
  }

  lemma {:induction false} DefinitionsConcat(a: seq<File>, b: seq<File>, name: string)
    ensures Definitions(a + b, name) == Definitions(a, name) + Definitions(b, name)
  {
    if b == [] {
      assert a + b == a;
    } else {
      var n := |b| - 1;
      DefinitionsConcat(a, b[..n], name);
      assert (a + b)[..|a| + n] == a + b[..n];
    }
  }

  lemma LayeredMore(before: seq<Svc>, svc: Svc)
    ensures Layered(before + [svc]) == if before == [] then svc else MergeService(Layered(before), svc)
  {
  }

  lemma MergedAt(a: File, b: File, n: string)
    ensures At(MergeFiles(a, b).services, n) == if n !in b.services then At(a.services, n)
                                                else if n !in a.services then Some(b.services[n])
                                                else Some(MergeService(a.services[n], b.services[n]))
  {
  }

  /** A service of the fold is the layering of all its definitions, and of nothing else. */
  lemma {:induction false} ServiceOfFold(files: seq<File>, name: string)
    requires files != []
    ensures At(MergeAll(files).services, name) ==
            if Definitions(files, name) == [] then None else Some(Layered(Definitions(files, name)))
  {
    var n := |files| - 1;
    if n == 0 {
      assert Definitions(files[..0], name) == [];
    } else {
      var before, last := files[..n], files[n];
      ServiceOfFold(before, name);
      MergedAt(MergeAll(before), last, name);
      if name in last.services {
        LayeredMore(Definitions(before, name), last.services[name]);
      } else {
        assert Definitions(files, name) == Definitions(before, name);
      }
    }
  }

  /** A network or volume of the fold comes from the last file that declares it. */
  lemma {:induction false} LastFileDeclares(files: seq<File>, i: nat, k: string)
    requires i < |files|
    ensures var r, f, later := MergeAll(files), files[i], files[i + 1..];
            && (k in f.networks && (forall o :: o in later ==> k !in o.networks) ==>
                  k in r.networks && r.networks[k] == f.networks[k])
            && (k in f.volumes && (forall o :: o in later ==> k !in o.volumes) ==>
                  k in r.volumes && r.volumes[k] == f.volumes[k])
  {
    var n := |files| - 1;
    if i < n {
      LastFileDeclares(files[..n], i, k);
      assert files[i + 1..] == files[..n][i + 1..] + [files[n]];
    }
  }

  /** None comes from anywhere else. */
  lemma {:induction false} SomeFileDeclares(files: seq<File>, k: string)
    requires files != []
    ensures k in MergeAll(files).networks ==> exists f :: f in files && k in f.networks
    ensures k in MergeAll(files).volumes ==> exists f :: f in files && k in f.volumes
  {
    var n := |files| - 1;
    assert files[n] in files;
    if n > 0 {
      SomeFileDeclares(files[..n], k);
    }
  }

  lemma EmptyDefinesNothing(files: seq<File>, name: string)
    ensures Definitions([EMPTY] + files, name) == Definitions(files, name)
  {
    DefinitionsConcat([EMPTY], files, name);
    assert [EMPTY][..0] == [];
    assert Definitions([EMPTY], name) == [];
  }

  /** A service of a loaded project is, up to the form of its environment and labels, the layering
      of all its definitions in all include trees, in preorder. */
  lemma LoadedService(fs: Files, paths: seq<string>, env: Environment, name: string)
    requires Loaded(fs, paths, env).Some?
    ensures var definitions := Definitions(ProjectListing(fs, paths, env), name);
            NormalAt(Loaded(fs, paths, env).value.services, name) ==
            if definitions == [] then None else Some(Normal(Layered(definitions)))
  {
    var files := [EMPTY] + ProjectListing(fs, paths, env);
    LoadedIsFlatFold(fs, paths, env);
    ServiceOfFold(files, name);
    EmptyDefinesNothing(ProjectListing(fs, paths, env), name);
    assert NormalAt(Loaded(fs, paths, env).value.services, name) == NormalAt(MergeAll(files).services, name);
  }

  // ----- which include decides -----

  /** The file includes these by a list of their paths, and they include nothing themselves. */
  ghost predicate IncludesLeaves(fs: Files, baseDir: string, cf: File, env: Environment, files: seq<File>) {
    && cf.include_.Some? && cf.include_.value.IncludeList?
    && var entries := cf.include_.value.entries;
       && |entries| == |files|
       && forall k :: 0 <= k < |entries| ==>
            && entries[k].PathEntry? && files[k].include_.None?
            && fs.parse(fs.join(baseDir, entries[k].text), env) == Some(files[k])
  }

  lemma {:induction false} PathRefs(fs: Files, baseDir: string, entries: seq<IncludeEntry>)
    requires forall k :: 0 <= k < |entries| ==> entries[k].PathEntry?
    ensures var refs := ListRefs(fs, baseDir, entries);
            && |refs| == |entries|
            && forall k :: 0 <= k < |refs| ==> refs[k] == IncludeRef(fs.join(baseDir, entries[k].text), "")
  {
    if entries != [] {
      PathRefs(fs, baseDir, entries[..|entries| - 1]);
    }
  }

  lemma LeafIncluded(fs: Files, ref: IncludeRef, env: Environment, depth: nat, file: File)
    requires depth <= MAX_DEPTH && ref.envFile == ""
    requires fs.parse(ref.path, env) == Some(file) && file.include_.None?
    ensures Included(fs, ref, env, depth) == Some(file)
  {
  }

  lemma MergeAllMore(files: seq<File>, last: File)
    requires files != []
    ensures MergeAll(files + [last]) == MergeFiles(MergeAll(files), last)
  {
  }

  lemma {:induction false} LeavesFold(
    fs: Files, cf: File, refs: seq<IncludeRef>, env: Environment, depth: nat, files: seq<File>)
    requires depth <= MAX_DEPTH && |refs| == |files|
    requires forall k :: 0 <= k < |refs| ==>
               refs[k].envFile == "" && fs.parse(refs[k].path, env) == Some(files[k]) && files[k].include_.None?
    ensures WithIncluded(fs, cf, refs, env, depth) == MergeAll([cf] + files)
    decreases |refs|
  {
    if refs == [] {
      assert [cf] + files == [cf];
    } else {
      var n := |refs| - 1;
      LeavesFold(fs, cf, refs[..n], env, depth, files[..n]);
      LeafIncluded(fs, refs[n], env, depth, files[n]);
      MergeAllMore([cf] + files[..n], files[n]);
      assert [cf] + files == ([cf] + files[..n]) + [files[n]];
    }
  }

  /** Such includes are merged in the order of the list. */
  lemma ResolvedLeaves(fs: Files, baseDir: string, cf: File, env: Environment, depth: nat, files: seq<File>)
    requires depth <= 10 && IncludesLeaves(fs, baseDir, cf, env, files)
    ensures Resolved(fs, baseDir, cf, env, depth) == MergeAll([cf] + files).(include_ := None)
  {
    PathRefs(fs, baseDir, cf.include_.value.entries);
    LeavesFold(fs, cf, Refs(fs, baseDir, cf.include_.value), env, depth, files);
  }

  /** Of the includes that define a service the later one decides: what one of them sets and no
      later one does is in the result, and so is a variable or label. */
  lemma LaterIncludeDecides(fs: Files, baseDir: string, cf: File, env: Environment, depth: nat, files: seq<File>,
                            i: nat, name: string)
    requires depth <= 10 && IncludesLeaves(fs, baseDir, cf, env, files)
    requires i < |files| && name in files[i].services
    ensures var r, l, later := Resolved(fs, baseDir, cf, env, depth), files[i].services[name],
                               Definitions(files[i + 1..], name);
            && name in r.services && Decides(l, later, r.services[name])
            && forall labels, k, v ::
                 Sets(EnvOf(l, labels), k, v) && (forall s :: s in later ==> !SetsName(EnvOf(s, labels), k)) ==>
                   Sets(EnvOf(r.services[name], labels), k, v)
  {
    ResolvedLeaves(fs, baseDir, cf, env, depth, files);
    ServiceOfFold([cf] + files, name);
    var l, later := files[i].services[name], Definitions(files[i + 1..], name);
    var layers, n := Definitions([cf] + files, name), |Definitions([cf] + files[..i], name)|;
    LayerOfFile(cf, files, i, name);
    LastLayerDecides(layers, n);
    forall labels, k, v | Sets(EnvOf(l, labels), k, v) && forall s :: s in later ==> !SetsName(EnvOf(s, labels), k)
      ensures Sets(EnvOf(Layered(layers), labels), k, v)
    {
      LastLayerSets(layers, n, labels, k, v);
    }
  }

  lemma LayerOfFile(cf: File, files: seq<File>, i: nat, name: string)
    requires i < |files| && name in files[i].services
    ensures var layers, n := Definitions([cf] + files, name), |Definitions([cf] + files[..i], name)|;
            && n < |layers| && layers[n] == files[i].services[name]
            && layers[n + 1..] == Definitions(files[i + 1..], name)
  {
    var a, b := [cf] + files[..i], files[i + 1..];
    assert [cf] + files == (a + [files[i]]) + b;
    DefinitionsConcat(a + [files[i]], b, name);
    assert (a + [files[i]])[..|a|] == a;
  }

  // ----- the loops -----

  /** The references are those of the directive, in its order; `places` tells of a list which entry
      each belongs to. */
  method ParseIncludeEntries(fs: Files, baseDir: string, raw: Include)
    returns (refs: seq<IncludeRef>, ghost places: seq<nat>)
    ensures refs == Refs(fs, baseDir, raw)
    ensures raw.IncludeList? ==> RefersInOrder(fs, baseDir, raw.entries, refs, places)
    ensures raw.IncludeOne? ==> refs == [IncludeRef(fs.join(baseDir, raw.text), "")]
    ensures raw.IncludeOther? ==> refs == []
  {
    refs, places := [], [];
    match raw {
      case IncludeList(entries) =>
        for i := 0 to |entries|
          invariant refs == ListRefs(fs, baseDir, entries[..i])
        {
          assert entries[..i + 1][..i] == entries[..i];
          match entries[i] {
            case PathEntry(text) =>
              refs := refs + [IncludeRef(fs.join(baseDir, text), "")];
            case MapEntry(path, envFile) =>
              var ref := IncludeRef("", "");
              if path.Some? {
                ref := ref.(path := fs.join(baseDir, path.value));
              }
              if envFile.Some? {
                ref := ref.(envFile := fs.join(baseDir, envFile.value));
              }
              if ref.path != "" {
                refs := refs + [ref];
              }
            case OtherEntry =>
          }
        }
        assert entries[..|entries|] == entries;
        places := ListRefsInOrder(fs, baseDir, entries);
      case IncludeOne(text) =>
        refs := refs + [IncludeRef(fs.join(baseDir, text), "")];
      case IncludeOther =>
    }
  }

  /** resolveIncludes, which changes the file in place. */
  method ResolveIncludes(fs: Files, baseDir: string, cf: ComposeFile, env: Environment, depth: nat)
    modifies cf
    ensures cf.Contents() == Resolved(fs, baseDir, old(cf.Contents()), env, depth)
    decreases MAX_DEPTH + 1 - depth, 0
  {
    if cf.include_.None? || depth > MAX_DEPTH {
      return;
    }
    var includes, _ := ParseIncludeEntries(fs, baseDir, cf.include_.value);
    for i := 0 to |includes|
      invariant cf.Contents() == WithIncluded(fs, old(cf.Contents()), includes[..i], env, depth)
    {
      assert includes[..i + 1][..i] == includes[..i];
      IncludeOneFile(fs, cf, includes[i], env, depth);
    }
    assert includes[..|includes|] == includes;
    cf.include_ := None;
  }

  /** One round of the loop over the includes. */
  method IncludeOneFile(fs: Files, cf: ComposeFile, inc: IncludeRef, env: Environment, depth: nat)
    requires depth <= MAX_DEPTH
    modifies cf
    ensures cf.Contents() == match Included(fs, inc, env, depth)
                             case None => old(cf.Contents())
                             case Some(file) => MergeFiles(old(cf.Contents()), file)
    decreases MAX_DEPTH - depth, 1
  {
    var incEnv := Update(map[], env);
    assert incEnv == env;
    if inc.envFile != "" {
      incEnv := fs.assign(inc.envFile, incEnv);
    }
    var parsed := fs.parse(inc.path, incEnv);
    if parsed.None? {
      return;
    }
    var incFile := new ComposeFile(parsed.value);
    ResolveIncludes(fs, fs.dir(inc.path), incFile, incEnv, depth + 1);
    cf.MergeInto(incFile);
  }

  /** The first loop of Parse. */
  method ParseComposeFiles(fs: Files, paths: seq<string>, env: Environment) returns (r: Option<File>)
    ensures r == Loaded(fs, paths, env)
  {
    var merged := new ComposeFile(EMPTY);
    for i := 0 to |paths|
      invariant fresh(merged) && Loaded(fs, paths[..i], env) == Some(merged.Contents())
    {
      assert paths[..i + 1][..i] == paths[..i];
      var parsed := fs.parse(paths[i], env);
      if parsed.None? {
        LoadedNeedsAll(fs, paths, i, env);
        return None;
      }
      var cf := new ComposeFile(parsed.value);
      ResolveIncludes(fs, fs.dir(paths[i]), cf, env, 0);
      merged.MergeInto(cf);
    }
    assert paths[..|paths|] == paths;
    r := Some(merged.Contents());
  }

  lemma LoadedNeedsAll(fs: Files, paths: seq<string>, i: nat, env: Environment)
    requires i < |paths| && fs.parse(paths[i], env).None?
    ensures Loaded(fs, paths, env).None?
  {
  }
}
