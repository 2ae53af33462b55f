/** The recursive walk of internal/discovery/scanner.go. */
module Walk {
  import opened Options
  import opened Scanner

  /** What a walk has gathered: the inodes seen, the directories whose entries were read, in
      order, and the projects found there. */
  datatype Found = Found(visited: set<nat>, scanned: seq<Path>, projects: seq<DiscoveredProject>)

  // ----- the compose files of a directory -----

  /** The paths that a directory entry adds, once for every known name that it equals. */
  function NameMatches(dir: Path, name: string, names: seq<string>): seq<Path> {
    if names == [] then []
    else NameMatches(dir, name, names[..|names| - 1]) +
         if EqualFold(name, names[|names| - 1]) then [dir + [name]] else []
  }

  function ComposeFilesIn(dir: Path, entries: seq<Entry>): seq<Path> {
    if entries == [] then []
    else
      var name := entries[|entries| - 1].name;
      ComposeFilesIn(dir, entries[..|entries| - 1]) +
      NameMatches(dir, name, COMPOSE_FILE_NAMES) + NameMatches(dir, name, OVERRIDE_PATTERNS)
  }

  function EnvFilesIn(dir: Path, entries: seq<Entry>): seq<Path> {
    if entries == [] then []
    else EnvFilesIn(dir, entries[..|entries| - 1]) +
         if entries[|entries| - 1].name == ".env" then [dir + [".env"]] else []
  }

  function ProjectIn(dir: Path, entries: seq<Entry>): seq<DiscoveredProject> {
    var files := ComposeFilesIn(dir, entries);
    if files == [] then [] else [DiscoveredProject(dir, Ordered(files), EnvFilesIn(dir, entries))]
  }

  ghost predicate IsComposeName(name: string) {
    IsPrimaryName(name) || IsOverrideName(name)
  }

  lemma {:induction false} NameMatchesIff(dir: Path, name: string, names: seq<string>)
    ensures forall f :: f in NameMatches(dir, name, names) <==>
              f == dir + [name] && exists n :: n in names && EqualFold(name, n)
  {
    if names == [] {
    } else {
      NameMatchesIff(dir, name, names[..|names| - 1]);
      assert names == names[..|names| - 1] + [names[|names| - 1]];
    }
  }

  /** A directory's compose files are its entries of a known name, in any case. */
  lemma {:induction false} ComposeFilesIff(dir: Path, entries: seq<Entry>, f: Path)
    ensures f in ComposeFilesIn(dir, entries) <==>
            exists e :: e in entries && f == dir + [e.name] && IsComposeName(e.name)
  {
    if entries == [] {
    } else {
      var before, last := entries[..|entries| - 1], entries[|entries| - 1];
      assert entries == before + [last];
      ComposeFilesIff(dir, before, f);
      NameMatchesIff(dir, last.name, COMPOSE_FILE_NAMES);
      NameMatchesIff(dir, last.name, OVERRIDE_PATTERNS);
      NamesIff(last.name);
    }
  }

  /** Its environment files are its entries named ".env". */
  lemma {:induction false} EnvFilesIff(dir: Path, entries: seq<Entry>, f: Path)
    ensures f in EnvFilesIn(dir, entries) <==> f == dir + [".env"] && exists e :: e in entries && e.name == ".env"
  {
    if entries == [] {
    } else {
      var before, last := entries[..|entries| - 1], entries[|entries| - 1];
      assert entries == before + [last];
      EnvFilesIff(dir, before, f);
    }
  }

  /** With names that differ there is at most one. */
  lemma {:induction false} OneEnvFile(dir: Path, entries: seq<Entry>)
    requires NamesDiffer(entries)
    ensures |EnvFilesIn(dir, entries)| <= 1
  {
    if entries == [] {
    } else {
      var before, last := entries[..|entries| - 1], entries[|entries| - 1];
      OneEnvFile(dir, before);
      assert forall i :: 0 <= i < |before| ==> entries[i] == before[i] && entries[i].name != last.name;
      if last.name == ".env" && EnvFilesIn(dir, before) != [] {
        EnvFilesIff(dir, before, EnvFilesIn(dir, before)[0]);
      }
    }
  }

  // ----- the order of the compose files of a directory -----

  ghost predicate NamesDiffer(entries: seq<Entry>) {
    forall i, j :: 0 <= i < j < |entries| ==> entries[i].name != entries[j].name
  }

  lemma SameFileSameName(dir: Path, a: string, b: string)
    requires dir + [a] == dir + [b]
    ensures a == b
  {
    assert (dir + [a])[|dir|] == (dir + [b])[|dir|];
  }

  lemma NewFile(dir: Path, entries: seq<Entry>, name: string)
    requires forall e | e in entries :: e.name != name
    ensures dir + [name] !in ComposeFilesIn(dir, entries)
  {
    ComposeFilesIff(dir, entries, dir + [name]);
    forall e | e in entries ensures dir + [e.name] != dir + [name] {
      if dir + [e.name] == dir + [name] {
        SameFileSameName(dir, e.name, name);
      }
    }
  }

  /** The compose files are listed in the order of the entries. */
  lemma {:induction false} FilesInEntryOrder(dir: Path, entries: seq<Entry>, i: nat, j: nat)
    requires NamesDiffer(entries) && i < j < |entries|
    requires IsComposeName(entries[i].name) && IsComposeName(entries[j].name)
    ensures FirstIndex(ComposeFilesIn(dir, entries), dir + [entries[i].name])
            < FirstIndex(ComposeFilesIn(dir, entries), dir + [entries[j].name])
    decreases |entries|
  {
    var n := |entries| - 1;
    var before, last := entries[..n], entries[n];
    var x, y := dir + [entries[i].name], dir + [entries[j].name];
    var files := ComposeFilesIn(dir, before);
    var more := NameMatches(dir, last.name, COMPOSE_FILE_NAMES) + NameMatches(dir, last.name, OVERRIDE_PATTERNS);
    assert ComposeFilesIn(dir, entries) == files + more;
    ComposeFilesIff(dir, before, x);
    assert before[i] in before && x in files;
    FirstIndexConcat(files, more, x);
    FirstIndexConcat(files, more, y);
    if j < n {
      FilesInEntryOrder(dir, before, i, j);
      ComposeFilesIff(dir, before, y);
      assert before[j] in before;
    } else {
      NewFile(dir, before, last.name);
    }
  }

  /** Every entry that is an override but not in lower case is listed behind those of a primary name. */
  ghost predicate UnseenEntriesLast(entries: seq<Entry>) {
    forall i, j | 0 <= i < |entries| && 0 <= j < |entries| && IsPrimaryName(entries[i].name)
                  && IsOverrideName(entries[j].name) && !HasWord(entries[j].name) :: i < j
  }

  lemma UnseenFilesLast(dir: Path, entries: seq<Entry>)
    requires NamesDiffer(entries) && UnseenEntriesLast(entries)
    ensures UnseenOverridesLast(ComposeFilesIn(dir, entries))
  {
    var files := ComposeFilesIn(dir, entries);
    forall x, y | x in files && y in files && IsPrimaryFile(x) && IsOverrideFile(y) && !SaysOverride(y)
      ensures FirstIndex(files, x) < FirstIndex(files, y)
    {
      UnseenFilesOrder(dir, entries, x, y);
    }
  }

  lemma UnseenFilesOrder(dir: Path, entries: seq<Entry>, x: Path, y: Path)
    requires NamesDiffer(entries) && UnseenEntriesLast(entries)
    requires x in ComposeFilesIn(dir, entries) && y in ComposeFilesIn(dir, entries)
    requires IsPrimaryFile(x) && IsOverrideFile(y) && !SaysOverride(y)
    ensures FirstIndex(ComposeFilesIn(dir, entries), x) < FirstIndex(ComposeFilesIn(dir, entries), y)
  {
    var i := EntryOf(dir, entries, x);
    var j := EntryOf(dir, entries, y);
    FilesInEntryOrder(dir, entries, i, j);
  }

  lemma UnseenFileLast(dir: Path, entries: seq<Entry>, i: nat, j: nat)
    requires NamesDiffer(entries) && UnseenOverridesLast(ComposeFilesIn(dir, entries))
    requires i < |entries| && j < |entries| && IsPrimaryName(entries[i].name)
    requires IsOverrideName(entries[j].name) && !HasWord(entries[j].name)
    ensures i < j
  {
    FileOf(dir, entries, i);
    FileOf(dir, entries, j);
    var files, x, y := ComposeFilesIn(dir, entries), dir + [entries[i].name], dir + [entries[j].name];
    assert x[|x| - 1] == entries[i].name && y[|y| - 1] == entries[j].name;
    assert FirstIndex(files, x) < FirstIndex(files, y);
    if j < i {
      FilesInEntryOrder(dir, entries, j, i);
    }
  }

  /** A project has its override files behind all others exactly if in the listing of its directory
      the overrides that are not in lower case are behind the primary files. */
  lemma ProjectOverridesLastIff(dir: Path, entries: seq<Entry>)
    requires NamesDiffer(entries)
    ensures OverridesLast(Ordered(ComposeFilesIn(dir, entries))) <==> UnseenEntriesLast(entries)
  {
    OverridesLastIff(ComposeFilesIn(dir, entries));
    if UnseenEntriesLast(entries) {
      UnseenFilesLast(dir, entries);
    }
    if UnseenOverridesLast(ComposeFilesIn(dir, entries)) {
      forall i, j | 0 <= i < |entries| && 0 <= j < |entries| && IsPrimaryName(entries[i].name)
                    && IsOverrideName(entries[j].name) && !HasWord(entries[j].name)
        ensures i < j
      {
        UnseenFileLast(dir, entries, i, j);
      }
    }
  }

  lemma EntryOf(dir: Path, entries: seq<Entry>, f: Path) returns (i: nat)
    requires f in ComposeFilesIn(dir, entries)
    ensures i < |entries| && f == dir + [entries[i].name] && f[|f| - 1] == entries[i].name
    ensures IsComposeName(entries[i].name)
  {
    ComposeFilesIff(dir, entries, f);
    var e :| e in entries && f == dir + [e.name] && IsComposeName(e.name);
    i :| 0 <= i < |entries| && entries[i] == e;
  }

  lemma FileOf(dir: Path, entries: seq<Entry>, i: nat)
    requires i < |entries| && IsComposeName(entries[i].name)
    ensures dir + [entries[i].name] in ComposeFilesIn(dir, entries)
  {
    ComposeFilesIff(dir, entries, dir + [entries[i].name]);
    assert entries[i] in entries;
  }

  // ----- the walk as a function -----

  /** The directory that a path leads to, and what is visited then, unless the walk turns back. */
  function Enter(fs: Fs, current: Path, visited: set<nat>): Option<(Path, set<nat>)> {
    match fs.lstat(current)
    case NoStat => None
    case LinkStat =>
      var target := fs.evalSymlinks(current);
      if target.None? then None
      else
        var stat := fs.stat(target.value);
        if !stat.DirStat? || stat.ino in visited then None else Some((target.value, visited + {stat.ino}))
    case DirStat(ino) => if ino in visited then None else Some((current, visited + {ino}))
    case PlainStat => Some((current, visited))
  }

  predicate Descends(e: Entry) {
    (e.isDir || e.isLink) && !IsSkipped(e.name)
  }

  function Walked(fs: Fs, maxDepth: nat, current: Path, depth: nat, found: Found): Found
    decreases maxDepth + 1 - depth, 0, 0
  {
    if depth > maxDepth then found
    else
      match Enter(fs, current, found.visited)
      case None => found
      case Some((dir, visited)) =>
        match fs.readDir(dir)
        case None => found.(visited := visited)
        case Some(entries) => WalkedEntries(fs, maxDepth, dir, entries, depth, Scanned(found, visited, dir, entries))
  }

  /** Reading a directory. */
  function Scanned(found: Found, visited: set<nat>, dir: Path, entries: seq<Entry>): Found {
    Found(visited, found.scanned + [dir], found.projects + ProjectIn(dir, entries))
  }

  function WalkedEntries(fs: Fs, maxDepth: nat, dir: Path, entries: seq<Entry>, depth: nat, found: Found): Found
    requires depth <= maxDepth
    decreases maxDepth - depth, 1, |entries|
  {
    if entries == [] then found
    else
      var before := WalkedEntries(fs, maxDepth, dir, entries[..|entries| - 1], depth, found);
      var e := entries[|entries| - 1];
      if Descends(e) then Walked(fs, maxDepth, dir + [e.name], depth + 1, before) else before
  }

  const NOTHING := Found({}, [], [])

  // ----- any symlinks: no inode is scanned twice -----

  /** Only directories can be read, and a path that is no link is what it is. */
  ghost predicate Consistent(fs: Fs) {
    && (forall p :: fs.readDir(p).Some? ==> fs.stat(p).DirStat?)
    && (forall p :: !fs.lstat(p).LinkStat? ==> fs.stat(p) == fs.lstat(p))
  }

  /** All directories scanned are visited, and none is another under a different path. */
  ghost predicate Sound(fs: Fs, visited: set<nat>, scanned: seq<Path>) {
    && (forall p :: p in scanned ==> fs.stat(p).DirStat? && fs.stat(p).ino in visited)
    && (forall i, j :: 0 <= i < j < |scanned| ==> fs.stat(scanned[i]) != fs.stat(scanned[j]))
  }

  lemma SoundIsInjective(fs: Fs, visited: set<nat>, scanned: seq<Path>, p: Path, q: Path)
    requires Sound(fs, visited, scanned) && p in scanned && q in scanned && fs.stat(p) == fs.stat(q)
    ensures p == q
  {
  }

  lemma ScanningIsSound(fs: Fs, current: Path, found: Found)
    requires Consistent(fs) && Sound(fs, found.visited, found.scanned)
    ensures var r := Enter(fs, current, found.visited);
            r.Some? ==> Sound(fs, r.value.1, found.scanned) &&
                        (fs.readDir(r.value.0).Some? ==> Sound(fs, r.value.1, found.scanned + [r.value.0]))
  {
  }

  /** Whatever the links, and whatever goes wrong, no inode is scanned twice. */
  lemma {:induction false} WalkedIsSound(fs: Fs, maxDepth: nat, current: Path, depth: nat, found: Found)
    requires Consistent(fs) && Sound(fs, found.visited, found.scanned)
    ensures var r := Walked(fs, maxDepth, current, depth, found); Sound(fs, r.visited, r.scanned)
    decreases maxDepth + 1 - depth, 0, 0
  {
    if depth <= maxDepth {
      ScanningIsSound(fs, current, found);
      var entered := Enter(fs, current, found.visited);
      if entered.Some? && fs.readDir(entered.value.0).Some? {
        var (dir, visited) := entered.value;
        var entries := fs.readDir(dir).value;
        EntriesAreSound(fs, maxDepth, dir, entries, depth, Scanned(found, visited, dir, entries));
      }
    }
  }

  lemma {:induction false} EntriesAreSound(
    fs: Fs, maxDepth: nat, dir: Path, entries: seq<Entry>, depth: nat, found: Found)
    requires depth <= maxDepth && Consistent(fs) && Sound(fs, found.visited, found.scanned)
    ensures var r := WalkedEntries(fs, maxDepth, dir, entries, depth, found); Sound(fs, r.visited, r.scanned)
    decreases maxDepth - depth, 1, |entries|
  {
    if entries == [] {
    } else {
      var before := entries[..|entries| - 1];
      EntriesAreSound(fs, maxDepth, dir, before, depth, found);
      if Descends(entries[|entries| - 1]) {
        WalkedIsSound(fs, maxDepth, dir + [entries[|entries| - 1].name], depth + 1,
                      WalkedEntries(fs, maxDepth, dir, before, depth, found));
      }
    }
  }

  // ----- the projects are those of the directories scanned -----

  function ProjectsOf(fs: Fs, scanned: seq<Path>): seq<DiscoveredProject> {
    if scanned == [] then []
    else
      var dir := scanned[|scanned| - 1];
      ProjectsOf(fs, scanned[..|scanned| - 1]) +
      match fs.readDir(dir)
      case None => []
      case Some(entries) => ProjectIn(dir, entries)
  }

  lemma ProjectsOfMore(fs: Fs, scanned: seq<Path>, dir: Path)
    requires fs.readDir(dir).Some?
    ensures ProjectsOf(fs, scanned + [dir]) == ProjectsOf(fs, scanned) + ProjectIn(dir, fs.readDir(dir).value)
  {
  }

  lemma {:induction false} WalkedProjects(fs: Fs, maxDepth: nat, current: Path, depth: nat, found: Found)
    requires found.projects == ProjectsOf(fs, found.scanned)
    ensures var r := Walked(fs, maxDepth, current, depth, found); r.projects == ProjectsOf(fs, r.scanned)
    decreases maxDepth + 1 - depth, 0, 0
  {
    if depth <= maxDepth {
      var entered := Enter(fs, current, found.visited);
      if entered.Some? && fs.readDir(entered.value.0).Some? {
        var (dir, visited) := entered.value;
        var entries := fs.readDir(dir).value;
        ProjectsOfMore(fs, found.scanned, dir);
        EntriesProjects(fs, maxDepth, dir, entries, depth, Scanned(found, visited, dir, entries));
      }
    }
  }

  lemma {:induction false} EntriesProjects(
    fs: Fs, maxDepth: nat, dir: Path, entries: seq<Entry>, depth: nat, found: Found)
    requires depth <= maxDepth && found.projects == ProjectsOf(fs, found.scanned)
    ensures var r := WalkedEntries(fs, maxDepth, dir, entries, depth, found); r.projects == ProjectsOf(fs, r.scanned)
    decreases maxDepth - depth, 1, |entries|
  {
    if entries == [] {
    } else {
      var before := entries[..|entries| - 1];
      EntriesProjects(fs, maxDepth, dir, before, depth, found);
      if Descends(entries[|entries| - 1]) {
        WalkedProjects(fs, maxDepth, dir + [entries[|entries| - 1].name], depth + 1,
                       WalkedEntries(fs, maxDepth, dir, before, depth, found));
      }
    }
  }

  lemma {:induction false} ProjectsOfIff(fs: Fs, scanned: seq<Path>, project: DiscoveredProject)
    ensures project in ProjectsOf(fs, scanned) <==>
            exists dir :: dir in scanned && fs.readDir(dir).Some? && project in ProjectIn(dir, fs.readDir(dir).value)
  {
    if scanned == [] {
    } else {
      var before, last := scanned[..|scanned| - 1], scanned[|scanned| - 1];
      assert scanned == before + [last];
      ProjectsOfIff(fs, before, project);
    }
  }

  /** A directory has a project in the result exactly when it was scanned and holds a compose
      file, by any known name in any case. */
  lemma FoundIff(fs: Fs, maxDepth: nat, root: Path, dir: Path)
    ensures var r := Walked(fs, maxDepth, root, 0, NOTHING);
            (exists project :: project in r.projects && project.path == dir) <==>
            (dir in r.scanned && fs.readDir(dir).Some? &&
             exists e :: e in fs.readDir(dir).value && IsComposeName(e.name))
  {
    var r := Walked(fs, maxDepth, root, 0, NOTHING);
    WalkedProjects(fs, maxDepth, root, 0, NOTHING);
    if project :| project in r.projects && project.path == dir {
      ProjectsOfIff(fs, r.scanned, project);
      ComposeFilesIff(dir, fs.readDir(dir).value, ComposeFilesIn(dir, fs.readDir(dir).value)[0]);
    }
    if dir in r.scanned && fs.readDir(dir).Some? {
      var entries := fs.readDir(dir).value;
      if e :| e in entries && IsComposeName(e.name) {
        ComposeFilesIff(dir, entries, dir + [e.name]);
        ProjectsOfIff(fs, r.scanned, ProjectIn(dir, entries)[0]);
        assert ProjectIn(dir, entries)[0] in r.projects;
      }
    }
  }

  /** The directories among these that hold a compose file. */
  ghost function Hosts(fs: Fs, scanned: seq<Path>): seq<Path> {
    if scanned == [] then []
    else
      var dir := scanned[|scanned| - 1];
      Hosts(fs, scanned[..|scanned| - 1]) +
      if fs.readDir(dir).Some? && exists e :: e in fs.readDir(dir).value && IsComposeName(e.name) then [dir] else []
  }

  function PathsOf(projects: seq<DiscoveredProject>): seq<Path> {
    seq(|projects|, i requires 0 <= i < |projects| => projects[i].path)
  }

  lemma ProjectIsThere(dir: Path, entries: seq<Entry>)
    ensures PathsOf(ProjectIn(dir, entries)) ==
            if exists e :: e in entries && IsComposeName(e.name) then [dir] else []
  {
    var files := ComposeFilesIn(dir, entries);
    if e :| e in entries && IsComposeName(e.name) {
      ComposeFilesIff(dir, entries, dir + [e.name]);
    }
    if files != [] {
      ComposeFilesIff(dir, entries, files[0]);
    }
  }

  lemma {:induction false} PathsOfProjects(fs: Fs, scanned: seq<Path>)
    ensures PathsOf(ProjectsOf(fs, scanned)) == Hosts(fs, scanned)
  {
    if scanned == [] {
    } else {
      var before, dir := scanned[..|scanned| - 1], scanned[|scanned| - 1];
      PathsOfProjects(fs, before);
      if fs.readDir(dir).Some? {
        ProjectIsThere(dir, fs.readDir(dir).value);
        var a, b := ProjectsOf(fs, before), ProjectIn(dir, fs.readDir(dir).value);
        assert PathsOf(a + b) == PathsOf(a) + PathsOf(b);
      } else {
        assert ProjectsOf(fs, before) + [] == ProjectsOf(fs, before);
      }
    }
  }

  /** What a project holds: the compose files of its directory without repeats, those with "override"
      in their names last and otherwise in the order of the entries, and its environment file. */
  ghost predicate IsProjectOf(project: DiscoveredProject, entries: seq<Entry>) {
    var dir, files := project.path, project.composeFiles;
    && NoRepeats(files)
    && (forall f :: f in files <==> exists e :: e in entries && f == dir + [e.name] && IsComposeName(e.name))
    && (forall x, y :: x in files && y in files && !SaysOverride(x) && SaysOverride(y) ==>
          FirstIndex(files, x) < FirstIndex(files, y))
    && (NamesDiffer(entries) ==> InEntryOrder(dir, files, entries) && |project.envFiles| <= 1)
    && (forall f :: f in project.envFiles <==> f == dir + [".env"] && exists e :: e in entries && e.name == ".env")
  }

  ghost predicate InEntryOrder(dir: Path, files: seq<Path>, entries: seq<Entry>) {
    forall i, j | 0 <= i < j < |entries| && IsComposeName(entries[i].name) && IsComposeName(entries[j].name)
                  && HasWord(entries[i].name) == HasWord(entries[j].name) ::
      FirstIndex(files, dir + [entries[i].name]) < FirstIndex(files, dir + [entries[j].name])
  }

  lemma OrderedInEntryOrder(dir: Path, entries: seq<Entry>, i: nat, j: nat)
    requires NamesDiffer(entries) && i < j < |entries|
    requires IsComposeName(entries[i].name) && IsComposeName(entries[j].name)
    requires HasWord(entries[i].name) == HasWord(entries[j].name)
    ensures FirstIndex(Ordered(ComposeFilesIn(dir, entries)), dir + [entries[i].name])
            < FirstIndex(Ordered(ComposeFilesIn(dir, entries)), dir + [entries[j].name])
  {
    var x, y := dir + [entries[i].name], dir + [entries[j].name];
    FileOf(dir, entries, i);
    FileOf(dir, entries, j);
    FilesInEntryOrder(dir, entries, i, j);
    assert x[|x| - 1] == entries[i].name && y[|y| - 1] == entries[j].name;
    SameKindKeepsOrder(ComposeFilesIn(dir, entries), x, y);
  }

  lemma ProjectHolds(dir: Path, entries: seq<Entry>, project: DiscoveredProject)
    requires project in ProjectIn(dir, entries)
    ensures project.path == dir && IsProjectOf(project, entries)
  {
    OrderedIsStable(ComposeFilesIn(dir, entries));
    forall f {
      ComposeFilesIff(dir, entries, f);
    }
    forall f {
      EnvFilesIff(dir, entries, f);
    }
    if NamesDiffer(entries) {
      OneEnvFile(dir, entries);
      forall i, j | 0 <= i < j < |entries| && IsComposeName(entries[i].name) && IsComposeName(entries[j].name)
                    && HasWord(entries[i].name) == HasWord(entries[j].name)
        ensures FirstIndex(project.composeFiles, dir + [entries[i].name])
                < FirstIndex(project.composeFiles, dir + [entries[j].name])
      {
        OrderedInEntryOrder(dir, entries, i, j);
      }
    }
  }

  /** The projects found are, in the order of the scan, one for each directory scanned that holds a
      compose file, and each is what its directory holds. */
  lemma FoundInOrder(fs: Fs, maxDepth: nat, root: Path)
    ensures var r := Walked(fs, maxDepth, root, 0, NOTHING);
            && PathsOf(r.projects) == Hosts(fs, r.scanned)
            && forall project :: project in r.projects ==>
                 fs.readDir(project.path).Some? && IsProjectOf(project, fs.readDir(project.path).value)
  {
    var r := Walked(fs, maxDepth, root, 0, NOTHING);
    WalkedProjects(fs, maxDepth, root, 0, NOTHING);
    PathsOfProjects(fs, r.scanned);
    forall project | project in r.projects
      ensures fs.readDir(project.path).Some? && IsProjectOf(project, fs.readDir(project.path).value)
    {
      ProjectsOfIff(fs, r.scanned, project);
      var dir :| dir in r.scanned && fs.readDir(dir).Some? && project in ProjectIn(dir, fs.readDir(dir).value);
      ProjectHolds(dir, fs.readDir(dir).value, project);
    }
  }

  // ----- no symlinks and no errors: exactly the directories in reach, each once -----

  /** A file system without links or read errors. */
  ghost predicate LinkFree(fs: Fs) {
    && Consistent(fs)
    && (forall p :: !fs.lstat(p).LinkStat?)
    && (forall p :: fs.stat(p).DirStat? ==> fs.readDir(p).Some?)
    && (forall p :: fs.readDir(p).Some? ==> DirectoryOk(fs, p, fs.readDir(p).value))
  }

  ghost predicate DirectoryOk(fs: Fs, dir: Path, entries: seq<Entry>) {
    && (forall e :: e in entries ==> !e.isLink && (e.isDir ==> fs.stat(dir + [e.name]).DirStat?))
    && (forall i, j :: 0 <= i < j < |entries| ==> entries[i].name != entries[j].name)
  }

  /** The path below a directory is one of directories that are neither hidden nor named
      node_modules or vendor. */
  ghost predicate InTree(fs: Fs, dir: Path, below: seq<string>)
    decreases |below|
  {
    below == [] ||
    (fs.readDir(dir).Some? && (exists e :: e in fs.readDir(dir).value && e.name == below[0] && IsWalked(e)) &&
     InTree(fs, dir + [below[0]], below[1..]))
  }

  /** A directory or a link that is neither hidden nor named node_modules or vendor. */
  ghost predicate IsWalked(e: Entry) {
    (e.isDir || e.isLink) && (e.name == "" || e.name[0] != '.') && e.name != "node_modules" && e.name != "vendor"
  }

  /** The same, step by step. */
  ghost predicate InReach(fs: Fs, levels: nat, dir: Path, p: Path)
    decreases levels, 0
  {
    p == dir ||
    (levels > 0 && fs.readDir(dir).Some? && InReachOfEntries(fs, levels - 1, dir, fs.readDir(dir).value, p))
  }

  ghost predicate InReachOfEntries(fs: Fs, levels: nat, dir: Path, entries: seq<Entry>, p: Path)
    decreases levels, 1
  {
    exists e :: e in entries && Descends(e) && InReach(fs, levels, dir + [e.name], p)
  }

  lemma {:induction false} InReachBelow(fs: Fs, levels: nat, dir: Path, p: Path) returns (below: seq<string>)
    requires InReach(fs, levels, dir, p)
    ensures p == dir + below && |below| <= levels && InTree(fs, dir, below)
  {
    if p == dir {
      below := [];
    } else {
      var e :| e in fs.readDir(dir).value && Descends(e) && InReach(fs, levels - 1, dir + [e.name], p);
      var rest := InReachBelow(fs, levels - 1, dir + [e.name], p);
      below := [e.name] + rest;
      assert below[1..] == rest;
    }
  }

  lemma {:induction false} BelowInReach(fs: Fs, levels: nat, dir: Path, below: seq<string>)
    requires |below| <= levels && InTree(fs, dir, below)
    ensures InReach(fs, levels, dir, dir + below)
    decreases |below|
  {
    if below == [] {
      assert dir + below == dir;
    } else {
      var e :| e in fs.readDir(dir).value && e.name == below[0] && Descends(e);
      BelowInReach(fs, levels - 1, dir + [e.name], below[1..]);
      assert dir + [e.name] + below[1..] == dir + below;
      assert InReachOfEntries(fs, levels - 1, dir, fs.readDir(dir).value, dir + below);
    }
  }

  /** In the tree, and no more than so many levels down. */
  ghost predicate WithinTree(fs: Fs, levels: nat, dir: Path, p: Path) {
    exists below :: p == dir + below && |below| <= levels && InTree(fs, dir, below)
  }

  lemma InReachIff(fs: Fs, levels: nat, dir: Path, p: Path)
    ensures InReach(fs, levels, dir, p) <==> WithinTree(fs, levels, dir, p)
  {
    if InReach(fs, levels, dir, p) {
      var below := InReachBelow(fs, levels, dir, p);
    }
    if below :| p == dir + below && |below| <= levels && InTree(fs, dir, below) {
      BelowInReach(fs, levels, dir, below);
    }
  }

  /** No two directories in reach share an inode number, as those of two file systems may. */
  ghost predicate OwnInodes(fs: Fs, levels: nat, dir: Path) {
    forall p, q :: InReach(fs, levels, dir, p) && InReach(fs, levels, dir, q) && fs.stat(p) == fs.stat(q) ==> p == q
  }

  lemma {:induction false} InReachLiesBelow(fs: Fs, levels: nat, dir: Path, p: Path)
    requires InReach(fs, levels, dir, p)
    ensures dir <= p
    ensures LinkFree(fs) && fs.stat(dir).DirStat? ==> fs.stat(p).DirStat?
  {
    if p != dir {
      var e :| e in fs.readDir(dir).value && Descends(e) && InReach(fs, levels - 1, dir + [e.name], p);
      InReachLiesBelow(fs, levels - 1, dir + [e.name], p);
    }
  }

  lemma InReachOfEntry(fs: Fs, levels: nat, dir: Path, entries: seq<Entry>, e: Entry, p: Path)
    requires fs.readDir(dir) == Some(entries) && e in entries && Descends(e)
    requires InReach(fs, levels, dir + [e.name], p)
    ensures InReach(fs, levels + 1, dir, p) && |dir| < |p| && dir <= p && p[|dir|] == e.name
  {
    InReachLiesBelow(fs, levels, dir + [e.name], p);
    assert InReachOfEntries(fs, levels, dir, entries, p);
  }

  /** No directory in reach has been visited. */
  ghost predicate Clear(fs: Fs, visited: set<nat>, levels: nat, dir: Path) {
    forall q :: InReach(fs, levels, dir, q) && fs.stat(q).DirStat? ==> fs.stat(q).ino !in visited
  }

  /** All that has been visited since is in reach. */
  ghost predicate Grown(fs: Fs, visited: set<nat>, visited': set<nat>, levels: nat, dir: Path) {
    forall ino :: ino in visited' && ino !in visited ==>
      exists q :: InReach(fs, levels, dir, q) && fs.stat(q) == DirStat(ino)
  }

  ghost predicate GrownByEntries(
    fs: Fs, visited: set<nat>, visited': set<nat>, levels: nat, dir: Path, entries: seq<Entry>)
  {
    forall ino :: ino in visited' && ino !in visited ==>
      exists q :: InReachOfEntries(fs, levels, dir, entries, q) && fs.stat(q) == DirStat(ino)
  }

  lemma GrownHere(fs: Fs, visited: set<nat>, visited': set<nat>, levels: nat, dir: Path)
    requires fs.stat(dir).DirStat? && fs.readDir(dir).Some?
    requires if levels == 0 then visited' == visited + {fs.stat(dir).ino}
             else GrownByEntries(fs, visited + {fs.stat(dir).ino}, visited', levels - 1, dir, fs.readDir(dir).value)
    ensures Grown(fs, visited, visited', levels, dir)
  {
    forall ino | ino in visited' && ino !in visited
      ensures exists q :: InReach(fs, levels, dir, q) && fs.stat(q) == DirStat(ino)
    {
      if ino == fs.stat(dir).ino {
        assert InReach(fs, levels, dir, dir) && fs.stat(dir) == DirStat(ino);
      } else {
        var q :| InReachOfEntries(fs, levels - 1, dir, fs.readDir(dir).value, q) && fs.stat(q) == DirStat(ino);
        assert InReach(fs, levels, dir, q);
      }
    }
  }

  lemma ClearBelow(fs: Fs, visited: set<nat>, levels: nat, dir: Path, e: Entry)
    requires fs.readDir(dir).Some? && e in fs.readDir(dir).value && Descends(e) && fs.stat(dir).DirStat?
    requires OwnInodes(fs, levels + 1, dir) && Clear(fs, visited, levels + 1, dir)
    ensures OwnInodes(fs, levels, dir + [e.name])
    ensures Clear(fs, visited + {fs.stat(dir).ino}, levels, dir + [e.name])
  {
    forall q | InReach(fs, levels, dir + [e.name], q) {
      InReachOfEntry(fs, levels, dir, fs.readDir(dir).value, e, q);
    }
    assert InReach(fs, levels + 1, dir, dir);
  }

  lemma ClearBeside(
    fs: Fs, visited: set<nat>, visited': set<nat>, levels: nat, dir: Path,
    entries: seq<Entry>, before: seq<Entry>, e: Entry)
    requires fs.readDir(dir) == Some(entries) && e in entries && Descends(e)
    requires forall o :: o in before ==> o in entries && o.name != e.name
    requires OwnInodes(fs, levels + 1, dir)
    requires Clear(fs, visited, levels, dir + [e.name]) && GrownByEntries(fs, visited, visited', levels, dir, before)
    ensures Clear(fs, visited', levels, dir + [e.name])
  {
    forall q | InReach(fs, levels, dir + [e.name], q) && fs.stat(q).DirStat?
      ensures fs.stat(q).ino !in visited'
    {
      InReachOfEntry(fs, levels, dir, entries, e, q);
      forall r, o | o in before && Descends(o) && InReach(fs, levels, dir + [o.name], r)
        ensures fs.stat(r) != fs.stat(q)
      {
        InReachOfEntry(fs, levels, dir, entries, o, r);
      }
    }
  }

  lemma GrownMore(
    fs: Fs, visited: set<nat>, before: set<nat>, after: set<nat>, levels: nat, dir: Path,
    entries: seq<Entry>, last: Entry)
    requires GrownByEntries(fs, visited, before, levels, dir, entries)
    requires after == before || (Descends(last) && Grown(fs, before, after, levels, dir + [last.name]))
    ensures GrownByEntries(fs, visited, after, levels, dir, entries + [last])
  {
  }

  lemma {:induction false} WalkedIff(fs: Fs, maxDepth: nat, current: Path, depth: nat, found: Found, p: Path)
    requires LinkFree(fs) && fs.stat(current).DirStat? && depth <= maxDepth
    requires OwnInodes(fs, maxDepth - depth, current) && Clear(fs, found.visited, maxDepth - depth, current)
    ensures var r := Walked(fs, maxDepth, current, depth, found);
            && (p in r.scanned <==> p in found.scanned || InReach(fs, maxDepth - depth, current, p))
            && Grown(fs, found.visited, r.visited, maxDepth - depth, current)
    decreases maxDepth + 1 - depth, 0, 0
  {
    var levels := maxDepth - depth;
    assert InReach(fs, levels, current, current) && fs.lstat(current) == fs.stat(current);
    var visited := found.visited + {fs.stat(current).ino};
    assert Enter(fs, current, found.visited) == Some((current, visited));
    var entries := fs.readDir(current).value;
    if levels > 0 {
      forall e | e in entries && Descends(e) {
        ClearBelow(fs, found.visited, levels - 1, current, e);
      }
    }
    var scanned := Scanned(found, visited, current, entries);
    if levels > 0 {
      EntriesIff(fs, maxDepth, current, entries, entries, depth, scanned, p);
    } else {
      DeepestEntries(fs, maxDepth, current, entries, scanned);
    }
    var r := WalkedEntries(fs, maxDepth, current, entries, depth, scanned);
    GrownHere(fs, found.visited, r.visited, levels, current);
  }

  /** The directories of these entries can be walked to their full depth. */
  ghost predicate EntriesClear(fs: Fs, visited: set<nat>, levels: nat, dir: Path, entries: seq<Entry>) {
    forall e :: e in entries && Descends(e) ==>
      OwnInodes(fs, levels, dir + [e.name]) && Clear(fs, visited, levels, dir + [e.name])
  }

  lemma {:induction false} EntriesIff(
    fs: Fs, maxDepth: nat, dir: Path, all: seq<Entry>, entries: seq<Entry>, depth: nat, found: Found, p: Path)
    requires LinkFree(fs) && depth < maxDepth && fs.readDir(dir) == Some(all) && entries <= all
    requires OwnInodes(fs, maxDepth - depth, dir)
    requires EntriesClear(fs, found.visited, maxDepth - depth - 1, dir, all)
    ensures var r := WalkedEntries(fs, maxDepth, dir, entries, depth, found);
            && (p in r.scanned <==> p in found.scanned || InReachOfEntries(fs, maxDepth - depth - 1, dir, entries, p))
            && GrownByEntries(fs, found.visited, r.visited, maxDepth - depth - 1, dir, entries)
    decreases maxDepth - depth, 1, |entries|
  {
    if entries == [] {
    } else {
      var n := |entries| - 1;
      assert entries == entries[..n] + [entries[n]];
      EntriesIff(fs, maxDepth, dir, all, entries[..n], depth, found, p);
      var r := WalkedEntries(fs, maxDepth, dir, entries[..n], depth, found);
      EntryIff(fs, maxDepth, dir, all, n, depth, found.visited, r, p);
      ReachMore(fs, maxDepth - depth - 1, dir, entries[..n], entries[n], p);
    }
  }

  lemma {:induction false} EntryIff(
    fs: Fs, maxDepth: nat, dir: Path, all: seq<Entry>, i: nat, depth: nat, visited: set<nat>, found: Found, p: Path)
    requires LinkFree(fs) && depth < maxDepth && fs.readDir(dir) == Some(all) && i < |all|
    requires OwnInodes(fs, maxDepth - depth, dir)
    requires EntriesClear(fs, visited, maxDepth - depth - 1, dir, all)
    requires GrownByEntries(fs, visited, found.visited, maxDepth - depth - 1, dir, all[..i])
    ensures var r := if Descends(all[i]) then Walked(fs, maxDepth, dir + [all[i].name], depth + 1, found) else found;
            && (p in r.scanned <==>
                p in found.scanned ||
                (Descends(all[i]) && InReach(fs, maxDepth - depth - 1, dir + [all[i].name], p)))
            && GrownByEntries(fs, visited, r.visited, maxDepth - depth - 1, dir, all[..i] + [all[i]])
    decreases maxDepth - depth, 1, 0
  {
    var levels, e := maxDepth - depth - 1, all[i];
    if Descends(e) {
      ClearBeside(fs, visited, found.visited, levels, dir, all, all[..i], e);
      WalkedIff(fs, maxDepth, dir + [e.name], depth + 1, found, p);
      GrownMore(fs, visited, found.visited, Walked(fs, maxDepth, dir + [e.name], depth + 1, found).visited,
                levels, dir, all[..i], e);
    } else {
      GrownMore(fs, visited, found.visited, found.visited, levels, dir, all[..i], e);
    }
  }

  lemma {:induction false} DeepestEntries(fs: Fs, maxDepth: nat, dir: Path, entries: seq<Entry>, found: Found)
    ensures WalkedEntries(fs, maxDepth, dir, entries, maxDepth, found) == found
  {
    if entries == [] {
    } else {
      var last := entries[|entries| - 1];
      DeepestEntries(fs, maxDepth, dir, entries[..|entries| - 1], found);
      assert Walked(fs, maxDepth, dir + [last.name], maxDepth + 1, found) == found;
    }
  }

  lemma ReachMore(fs: Fs, levels: nat, dir: Path, before: seq<Entry>, last: Entry, p: Path)
    ensures InReachOfEntries(fs, levels, dir, before + [last], p) <==>
            InReachOfEntries(fs, levels, dir, before, p) ||
            (Descends(last) && InReach(fs, levels, dir + [last.name], p))
  {
  }

  lemma {:induction false} WalkedOnly(fs: Fs, maxDepth: nat, current: Path, depth: nat, found: Found, p: Path)
    requires LinkFree(fs) && fs.stat(current).DirStat? && depth <= maxDepth
    requires p in Walked(fs, maxDepth, current, depth, found).scanned
    ensures p in found.scanned || InReach(fs, maxDepth - depth, current, p)
    decreases maxDepth + 1 - depth, 0, 0
  {
    assert fs.lstat(current) == fs.stat(current);
    if fs.stat(current).ino !in found.visited {
      var entries := fs.readDir(current).value;
      var scanned := Scanned(found, found.visited + {fs.stat(current).ino}, current, entries);
      EntriesOnly(fs, maxDepth, current, entries, depth, scanned, p);
    }
  }

  lemma {:induction false} EntriesOnly(
    fs: Fs, maxDepth: nat, dir: Path, entries: seq<Entry>, depth: nat, found: Found, p: Path)
    requires LinkFree(fs) && depth <= maxDepth && DirectoryOk(fs, dir, entries)
    requires p in WalkedEntries(fs, maxDepth, dir, entries, depth, found).scanned
    ensures p in found.scanned || (depth < maxDepth && InReachOfEntries(fs, maxDepth - depth - 1, dir, entries, p))
    decreases maxDepth - depth, 1, |entries|
  {
    if entries == [] {
    } else {
      var before, last := entries[..|entries| - 1], entries[|entries| - 1];
      assert entries == before + [last];
      var r := WalkedEntries(fs, maxDepth, dir, before, depth, found);
      assert depth == maxDepth ==> Walked(fs, maxDepth, dir + [last.name], depth + 1, r) == r;
      if p in r.scanned {
        EntriesOnly(fs, maxDepth, dir, before, depth, found, p);
      } else if depth < maxDepth {
        WalkedOnly(fs, maxDepth, dir + [last.name], depth + 1, r, p);
      }
    }
  }

  lemma OwnInodesScanned(fs: Fs, maxDepth: nat, root: Path)
    requires LinkFree(fs) && fs.stat(root).DirStat? && OwnInodes(fs, maxDepth, root)
    ensures forall p :: p in Walked(fs, maxDepth, root, 0, NOTHING).scanned <==> InReach(fs, maxDepth, root, p)
  {
    forall p {
      WalkedIff(fs, maxDepth, root, 0, NOTHING, p);
    }
  }

  lemma ScannedOwnInodes(fs: Fs, maxDepth: nat, root: Path, scanned: seq<Path>)
    requires scanned == Walked(fs, maxDepth, root, 0, NOTHING).scanned
    requires LinkFree(fs) && forall p :: InReach(fs, maxDepth, root, p) ==> p in scanned
    ensures OwnInodes(fs, maxDepth, root)
  {
    WalkedIsSound(fs, maxDepth, root, 0, NOTHING);
    forall p, q | InReach(fs, maxDepth, root, p) && InReach(fs, maxDepth, root, q) && fs.stat(p) == fs.stat(q)
      ensures p == q
    {
      SoundIsInjective(fs, Walked(fs, maxDepth, root, 0, NOTHING).visited, scanned, p, q);
    }
  }

  /** Without links and errors, the walk scans only directories within the depth whose path
      below the root has no hidden, node_modules or vendor component, and each once. */
  lemma ScansOnce(fs: Fs, maxDepth: nat, root: Path, p: Path)
    requires LinkFree(fs) && fs.stat(root).DirStat?
    ensures NoRepeats(Walked(fs, maxDepth, root, 0, NOTHING).scanned)
    ensures p in Walked(fs, maxDepth, root, 0, NOTHING).scanned ==> WithinTree(fs, maxDepth, root, p)
  {
    WalkedIsSound(fs, maxDepth, root, 0, NOTHING);
    if p in Walked(fs, maxDepth, root, 0, NOTHING).scanned {
      WalkedOnly(fs, maxDepth, root, 0, NOTHING, p);
      InReachIff(fs, maxDepth, root, p);
    }
  }

  /** It scans all of them exactly when no two of them share an inode number. */
  lemma ScanIsExactIff(fs: Fs, maxDepth: nat, root: Path)
    requires LinkFree(fs) && fs.stat(root).DirStat?
    ensures OwnInodes(fs, maxDepth, root) <==>
            forall p :: p in Walked(fs, maxDepth, root, 0, NOTHING).scanned <==> WithinTree(fs, maxDepth, root, p)
  {
    var scanned := Walked(fs, maxDepth, root, 0, NOTHING).scanned;
    forall p
      ensures InReach(fs, maxDepth, root, p) <==> WithinTree(fs, maxDepth, root, p)
    {
      InReachIff(fs, maxDepth, root, p);
    }
    if OwnInodes(fs, maxDepth, root) {
      OwnInodesScanned(fs, maxDepth, root);
    }
    if forall p :: p in scanned <==> WithinTree(fs, maxDepth, root, p) {
      ScannedOwnInodes(fs, maxDepth, root, scanned);
    }
  }

  /** A root with a directory "a" in it, on another file system that numbers it the same. */
  function SharedInode(): Fs {
    var stat := (p: Path) => if p == [] || p == ["a"] then DirStat(1) else NoStat;
    Fs(stat, stat, (p: Path) => None,
       (p: Path) => if p == [] then Some([Entry("a", true, false)]) else if p == ["a"] then Some([]) else None)
  }

  const ENTRY_A := Entry("a", true, false)

  lemma SharedInodeIsLinkFree()
    ensures LinkFree(SharedInode()) && SharedInode().stat([]).DirStat?
  {
    assert [] + ["a"] == ["a"];
    assert DirectoryOk(SharedInode(), [], [ENTRY_A]) && DirectoryOk(SharedInode(), ["a"], []);
  }

  lemma SharedInodeWithinTree(maxDepth: nat)
    requires maxDepth > 0
    ensures WithinTree(SharedInode(), maxDepth, [], ["a"])
  {
    assert ["a"][1..] == [] && [] + ["a"] == ["a"];
    assert ENTRY_A in SharedInode().readDir([]).value && Descends(ENTRY_A);
    assert InTree(SharedInode(), [], ["a"]);
  }

  lemma SharedInodeScanned(maxDepth: nat)
    requires maxDepth > 0
    ensures Walked(SharedInode(), maxDepth, [], 0, NOTHING).scanned == [[]]
  {
    var found := Scanned(NOTHING, {1}, [], [ENTRY_A]);
    assert SharedInode().lstat([]) == DirStat(1) && NOTHING.visited + {1} == {1};
    assert Enter(SharedInode(), [], NOTHING.visited) == Some(([], {1}));
    assert SharedInode().readDir([]) == Some([ENTRY_A]);
    assert found.scanned == [[]];
    assert [ENTRY_A][..0] == [] && [] + ["a"] == ["a"];
    assert Walked(SharedInode(), maxDepth, ["a"], 1, found) == found;
    assert WalkedEntries(SharedInode(), maxDepth, [], [], 0, found) == found;
    assert WalkedEntries(SharedInode(), maxDepth, [], [ENTRY_A], 0, found) == found;
  }

  /** The failing case: that directory is in depth and not skipped, and is not scanned. */
  lemma SharedInodeIsMissed(maxDepth: nat)
    requires maxDepth > 0
    ensures LinkFree(SharedInode()) && SharedInode().stat([]).DirStat? && !OwnInodes(SharedInode(), maxDepth, [])
    ensures WithinTree(SharedInode(), maxDepth, [], ["a"])
    ensures Walked(SharedInode(), maxDepth, [], 0, NOTHING).scanned == [[]]
  {
    SharedInodeIsLinkFree();
    SharedInodeWithinTree(maxDepth);
    SharedInodeScanned(maxDepth);
    ScanIsExactIff(SharedInode(), maxDepth, []);
  }

  // ----- any symlinks: every directory that they lead to -----

  /** A link is what it leads to, and paths of one inode are one directory with the same contents. */
  ghost predicate Faithful(fs: Fs) {
    && Consistent(fs)
    && (forall p :: fs.lstat(p).LinkStat? ==>
          match fs.evalSymlinks(p)
          case None => !fs.stat(p).DirStat?
          case Some(target) => fs.stat(p) == fs.stat(target))
    && (forall p, q :: SameDirectory(fs, p, q) ==> fs.readDir(p) == fs.readDir(q))
    && (forall p, q, name :: SameDirectory(fs, p, q) ==> fs.stat(p + [name]) == fs.stat(q + [name]))
  }

  ghost predicate SameDirectory(fs: Fs, p: Path, q: Path) {
    fs.stat(p).DirStat? && fs.stat(p) == fs.stat(q)
  }

  /** The directory of the first inode has an entry, not a skipped one, that leads to the second. */
  ghost predicate LeadsTo(fs: Fs, a: nat, b: nat) {
    exists d, e ::
      && fs.stat(d) == DirStat(a) && fs.readDir(d).Some? && e in fs.readDir(d).value
      && IsWalked(e) && fs.stat(d + [e.name]) == DirStat(b)
  }

  /** From inode to inode, each leading to the next. */
  ghost predicate IsTrail(fs: Fs, trail: seq<nat>) {
    trail != [] && forall i :: 0 <= i < |trail| - 1 ==> LeadsTo(fs, trail[i], trail[i + 1])
  }

  ghost predicate Reached(fs: Fs, a: nat, b: nat) {
    exists trail :: IsTrail(fs, trail) && trail[0] == a && trail[|trail| - 1] == b
  }

  ghost predicate Readable(fs: Fs, ino: nat) {
    exists d :: fs.stat(d) == DirStat(ino) && fs.readDir(d).Some?
  }

  ghost predicate IsScanned(fs: Fs, scanned: seq<Path>, ino: nat) {
    exists p :: p in scanned && fs.stat(p) == DirStat(ino)
  }

  /** All that the inode leads to is visited, and it is scanned if it can be read. */
  ghost predicate Settled(fs: Fs, ino: nat, found: Found) {
    && (forall b :: LeadsTo(fs, ino, b) ==> b in found.visited)
    && (Readable(fs, ino) ==> IsScanned(fs, found.scanned, ino))
  }

  /** The walk has only added to what was found before, and what it has added is settled. */
  ghost predicate Settles(fs: Fs, before: Found, after: Found) {
    && before.visited <= after.visited && before.scanned <= after.scanned
    && forall ino :: ino in after.visited && ino !in before.visited ==> Settled(fs, ino, after)
  }

  lemma SettledLater(fs: Fs, ino: nat, found: Found, later: Found)
    requires Settled(fs, ino, found) && found.visited <= later.visited && found.scanned <= later.scanned
    ensures Settled(fs, ino, later)
  {
    if p :| p in found.scanned && fs.stat(p) == DirStat(ino) {
      var i :| 0 <= i < |found.scanned| && found.scanned[i] == p;
      assert later.scanned[i] == p;
    }
  }

  lemma SettlesTransitive(fs: Fs, a: Found, b: Found, c: Found)
    requires Settles(fs, a, b) && Settles(fs, b, c)
    ensures Settles(fs, a, c)
  {
    forall ino | ino in c.visited && ino !in a.visited ensures Settled(fs, ino, c) {
      if ino in b.visited {
        SettledLater(fs, ino, b, c);
      }
    }
  }

  /** The entries lead to visited directories. */
  ghost predicate EntriesVisited(fs: Fs, dir: Path, entries: seq<Entry>, visited: set<nat>) {
    forall e :: e in entries && IsWalked(e) && fs.stat(dir + [e.name]).DirStat? ==>
      fs.stat(dir + [e.name]).ino in visited
  }

  /** Entering a directory that is new. */
  lemma EntersNew(fs: Fs, current: Path, visited: set<nat>)
    requires Faithful(fs)
    ensures var r := Enter(fs, current, visited);
            if fs.stat(current).DirStat? && fs.stat(current).ino !in visited
            then r.Some? && SameDirectory(fs, current, r.value.0) && r.value.1 == visited + {fs.stat(current).ino}
            else r.Some? ==> r.value.1 == visited && fs.readDir(r.value.0).None?
  {
  }

  /** A directory that is read, and whose entries have been walked, is settled. */
  lemma ReadIsSettled(fs: Fs, dir: Path, ino: nat, found: Found)
    requires Faithful(fs) && fs.stat(dir) == DirStat(ino) && fs.readDir(dir).Some?
    requires dir in found.scanned && EntriesVisited(fs, dir, fs.readDir(dir).value, found.visited)
    ensures Settled(fs, ino, found)
  {
    forall b | LeadsTo(fs, ino, b) ensures b in found.visited {
      var d, e :| fs.stat(d) == DirStat(ino) && fs.readDir(d).Some? && e in fs.readDir(d).value
                  && IsWalked(e) && fs.stat(d + [e.name]) == DirStat(b);
      assert SameDirectory(fs, d, dir);
    }
  }

  lemma UnreadIsSettled(fs: Fs, dir: Path, ino: nat, found: Found)
    requires Faithful(fs) && fs.stat(dir) == DirStat(ino) && fs.readDir(dir).None?
    ensures Settled(fs, ino, found)
  {
    forall d | fs.stat(d) == DirStat(ino) ensures fs.readDir(d).None? {
      assert SameDirectory(fs, d, dir);
    }
  }

  /** There is depth left for all the inodes that are not visited. */
  ghost predicate DeepEnough(all: set<nat>, visited: set<nat>, levels: int) {
    |all - visited| <= levels
  }

  lemma DeepEnoughBelow(all: set<nat>, visited: set<nat>, ino: nat, levels: int)
    requires DeepEnough(all, visited, levels) && ino in all && ino !in visited
    ensures DeepEnough(all, visited + {ino}, levels - 1)
  {
    assert all - (visited + {ino}) == (all - visited) - {ino};
  }

  lemma DeepEnoughLater(all: set<nat>, visited: set<nat>, later: set<nat>, levels: int)
    requires DeepEnough(all, visited, levels) && visited <= later
    ensures DeepEnough(all, later, levels)
  {
    SubsetSize(all - later, all - visited);
  }

  lemma SubsetSize<T>(a: set<T>, b: set<T>)
    requires a <= b
    ensures |a| <= |b|
  {
    assert b == a + (b - a);
  }

  ghost predicate AllDirectories(fs: Fs, all: set<nat>) {
    forall p :: fs.stat(p).DirStat? ==> fs.stat(p).ino in all
  }

  lemma {:induction false} WalkedSettles(
    fs: Fs, maxDepth: nat, current: Path, depth: nat, found: Found, all: set<nat>)
    requires Faithful(fs) && AllDirectories(fs, all) && DeepEnough(all, found.visited, maxDepth + 1 - depth)
    ensures var r := Walked(fs, maxDepth, current, depth, found);
            Settles(fs, found, r) && (fs.stat(current).DirStat? ==> fs.stat(current).ino in r.visited)
    decreases maxDepth + 1 - depth, 0, 0
  {
    EntersNew(fs, current, found.visited);
    if depth > maxDepth {
      assert all - found.visited == {};
    } else if fs.stat(current).DirStat? && fs.stat(current).ino !in found.visited {
      var ino := fs.stat(current).ino;
      var (dir, visited) := Enter(fs, current, found.visited).value;
      DeepEnoughBelow(all, found.visited, ino, maxDepth + 1 - depth);
      if fs.readDir(dir).None? {
        UnreadIsSettled(fs, dir, ino, found.(visited := visited));
      } else {
        NewSettles(fs, maxDepth, dir, ino, depth, found, all);
      }
    }
  }

  lemma {:induction false} NewSettles(
    fs: Fs, maxDepth: nat, dir: Path, ino: nat, depth: nat, found: Found, all: set<nat>)
    requires Faithful(fs) && AllDirectories(fs, all) && fs.stat(dir) == DirStat(ino) && fs.readDir(dir).Some?
    requires depth <= maxDepth && DeepEnough(all, found.visited + {ino}, maxDepth - depth)
    ensures var entries := fs.readDir(dir).value;
            var scanned := Scanned(found, found.visited + {ino}, dir, entries);
            var r := WalkedEntries(fs, maxDepth, dir, entries, depth, scanned);
            Settles(fs, found, r) && ino in r.visited
    decreases maxDepth - depth, 2, 0
  {
    var entries := fs.readDir(dir).value;
    var scanned := Scanned(found, found.visited + {ino}, dir, entries);
    EntriesSettle(fs, maxDepth, dir, entries, depth, scanned, all);
    var r := WalkedEntries(fs, maxDepth, dir, entries, depth, scanned);
    assert scanned.scanned[|found.scanned|] == dir && r.scanned[|found.scanned|] == dir;
    ReadIsSettled(fs, dir, ino, r);
  }

  lemma {:induction false} EntriesSettle(
    fs: Fs, maxDepth: nat, dir: Path, entries: seq<Entry>, depth: nat, found: Found, all: set<nat>)
    requires Faithful(fs) && AllDirectories(fs, all)
    requires depth <= maxDepth && DeepEnough(all, found.visited, maxDepth - depth)
    ensures var r := WalkedEntries(fs, maxDepth, dir, entries, depth, found);
            Settles(fs, found, r) && EntriesVisited(fs, dir, entries, r.visited)
    decreases maxDepth - depth, 1, |entries|
  {
    if entries == [] {
    } else {
      var before, e := entries[..|entries| - 1], entries[|entries| - 1];
      assert entries == before + [e];
      EntriesSettle(fs, maxDepth, dir, before, depth, found, all);
      var r := WalkedEntries(fs, maxDepth, dir, before, depth, found);
      if Descends(e) {
        DeepEnoughLater(all, found.visited, r.visited, maxDepth - depth);
        WalkedSettles(fs, maxDepth, dir + [e.name], depth + 1, r, all);
        SettlesTransitive(fs, found, r, Walked(fs, maxDepth, dir + [e.name], depth + 1, r));
      }
    }
  }

  lemma ReachedHere(fs: Fs, a: nat)
    ensures Reached(fs, a, a)
  {
    assert IsTrail(fs, [a]);
  }

  lemma ReachedBehind(fs: Fs, a: nat, b: nat, c: nat)
    requires LeadsTo(fs, a, b) && Reached(fs, b, c)
    ensures Reached(fs, a, c)
  {
    var trail :| IsTrail(fs, trail) && trail[0] == b && trail[|trail| - 1] == c;
    var longer := [a] + trail;
    forall i | 0 <= i < |longer| - 1 ensures LeadsTo(fs, longer[i], longer[i + 1]) {
      if i > 0 {
        assert LeadsTo(fs, trail[i - 1], trail[i]);
      }
    }
    assert IsTrail(fs, longer);
  }

  lemma {:induction false} WalkedReached(fs: Fs, maxDepth: nat, current: Path, depth: nat, found: Found, p: Path)
    requires Faithful(fs) && p !in found.scanned && p in Walked(fs, maxDepth, current, depth, found).scanned
    ensures fs.stat(current).DirStat? && fs.stat(p).DirStat? && fs.readDir(p).Some?
    ensures Reached(fs, fs.stat(current).ino, fs.stat(p).ino)
    decreases maxDepth + 1 - depth, 0, 0
  {
    EntersNew(fs, current, found.visited);
    var (dir, visited) := Enter(fs, current, found.visited).value;
    var entries := fs.readDir(dir).value;
    ReachedHere(fs, fs.stat(dir).ino);
    if p != dir {
      EntriesReached(fs, maxDepth, dir, entries, depth, Scanned(found, visited, dir, entries), p);
    }
  }

  lemma {:induction false} EntriesReached(
    fs: Fs, maxDepth: nat, dir: Path, entries: seq<Entry>, depth: nat, found: Found, p: Path)
    requires Faithful(fs) && fs.stat(dir).DirStat? && depth <= maxDepth
    requires fs.readDir(dir).Some? && entries <= fs.readDir(dir).value
    requires p !in found.scanned && p in WalkedEntries(fs, maxDepth, dir, entries, depth, found).scanned
    ensures fs.stat(p).DirStat? && fs.readDir(p).Some? && Reached(fs, fs.stat(dir).ino, fs.stat(p).ino)
    decreases maxDepth - depth, 1, |entries|
  {
    var n := |entries| - 1;
    var e := entries[n];
    assert e == fs.readDir(dir).value[n];
    var r := WalkedEntries(fs, maxDepth, dir, entries[..n], depth, found);
    if p in r.scanned {
      EntriesReached(fs, maxDepth, dir, entries[..n], depth, found, p);
    } else {
      WalkedReached(fs, maxDepth, dir + [e.name], depth + 1, r, p);
      assert LeadsTo(fs, fs.stat(dir).ino, fs.stat(dir + [e.name]).ino);
      ReachedBehind(fs, fs.stat(dir).ino, fs.stat(dir + [e.name]).ino, fs.stat(p).ino);
    }
  }

  lemma {:induction false} TrailVisited(fs: Fs, trail: seq<nat>, found: Found)
    requires IsTrail(fs, trail) && trail[0] in found.visited
    requires forall ino :: ino in found.visited ==> Settled(fs, ino, found)
    ensures trail[|trail| - 1] in found.visited
  {
    if |trail| > 1 {
      var before := trail[..|trail| - 1];
      forall i | 0 <= i < |before| - 1 ensures LeadsTo(fs, before[i], before[i + 1]) {
        assert LeadsTo(fs, trail[i], trail[i + 1]);
      }
      TrailVisited(fs, before, found);
      assert LeadsTo(fs, trail[|trail| - 2], trail[|trail| - 1]);
    }
  }

  /** When the depth is not less than the number of directories, the walk scans exactly the readable
      ones that are reached from the root, through links or without; with WalkedIsSound, each once. */
  lemma ScansAllReached(fs: Fs, maxDepth: nat, root: Path, all: set<nat>, ino: nat)
    requires Faithful(fs) && fs.stat(root).DirStat? && AllDirectories(fs, all) && |all| <= maxDepth + 1
    ensures IsScanned(fs, Walked(fs, maxDepth, root, 0, NOTHING).scanned, ino)
            <==> Reached(fs, fs.stat(root).ino, ino) && Readable(fs, ino)
  {
    var r := Walked(fs, maxDepth, root, 0, NOTHING);
    assert all - {} == all;
    WalkedSettles(fs, maxDepth, root, 0, NOTHING, all);
    if p :| p in r.scanned && fs.stat(p) == DirStat(ino) {
      WalkedReached(fs, maxDepth, root, 0, NOTHING, p);
    }
    if trail :| IsTrail(fs, trail) && trail[0] == fs.stat(root).ino && trail[|trail| - 1] == ino {
      TrailVisited(fs, trail, r);
    }
  }

  /** A root with two directories: in "a" is only a link to "b", and in "b" the directory "c". */
  function DeepLink(): Fs {
    var stat := (p: Path) =>
      if p == [] then DirStat(1)
      else if p == ["a"] then DirStat(2)
      else if p == ["b"] || p == ["a", "l"] then DirStat(3)
      else if p == ["b", "c"] || p == ["a", "l", "c"] then DirStat(4)
      else NoStat;
    Fs((p: Path) => if p == ["a", "l"] then LinkStat else stat(p),
       stat,
       (p: Path) => if p == ["a", "l"] then Some(["b"]) else None,
       (p: Path) =>
         if p == [] then Some([Entry("a", true, false), Entry("b", true, false)])
         else if p == ["a"] then Some([Entry("l", false, true)])
         else if p == ["b"] || p == ["a", "l"] then Some([Entry("c", true, false)])
         else if p == ["b", "c"] || p == ["a", "l", "c"] then Some([])
         else None)
  }

  lemma DeepLinkAliases(p: Path, q: Path)
    requires SameDirectory(DeepLink(), p, q)
    ensures || p == q
            || {p, q} == {["b"], ["a", "l"]}
            || {p, q} == {["b", "c"], ["a", "l", "c"]}
  {
  }

  lemma DeepLinkChildren(name: string)
    ensures DeepLink().stat(["b"] + [name]) == DeepLink().stat(["a", "l"] + [name])
    ensures DeepLink().stat(["b", "c"] + [name]) == DeepLink().stat(["a", "l", "c"] + [name])
  {
    assert ["b"] + [name] == ["b", name] && ["a", "l"] + [name] == ["a", "l", name];
    assert ["b", "c"] + [name] == ["b", "c", name] && ["a", "l", "c"] + [name] == ["a", "l", "c", name];
    assert (["b", name] == ["b", "c"] <==> name == "c") && (["a", "l", name] == ["a", "l", "c"] <==> name == "c") by {
      assert ["b", name][1] == name && ["a", "l", name][2] == name;
    }
    assert ["a", "l", name][0] == "a" && ["b", name][0] == "b";
  }

  lemma DeepLinkIsFaithful()
    ensures Faithful(DeepLink())
  {
    var fs := DeepLink();
    forall p, q | SameDirectory(fs, p, q) ensures fs.readDir(p) == fs.readDir(q) {
      DeepLinkAliases(p, q);
    }
    forall p, q, name | SameDirectory(fs, p, q) ensures fs.stat(p + [name]) == fs.stat(q + [name]) {
      DeepLinkAliases(p, q);
      DeepLinkChildren(name);
    }
  }

  lemma OneEntry(fs: Fs, maxDepth: nat, dir: Path, e: Entry, depth: nat, found: Found)
    requires depth <= maxDepth && Descends(e)
    ensures WalkedEntries(fs, maxDepth, dir, [e], depth, found) ==
            Walked(fs, maxDepth, dir + [e.name], depth + 1, found)
  {
    assert [e][..0] == [];
    assert WalkedEntries(fs, maxDepth, dir, [], depth, found) == found;
  }

  lemma TwoEntries(fs: Fs, maxDepth: nat, dir: Path, e: Entry, e': Entry, depth: nat, found: Found)
    requires depth <= maxDepth && Descends(e) && Descends(e')
    ensures WalkedEntries(fs, maxDepth, dir, [e, e'], depth, found) ==
            Walked(fs, maxDepth, dir + [e'.name], depth + 1, Walked(fs, maxDepth, dir + [e.name], depth + 1, found))
  {
    assert [e, e'][..1] == [e];
    OneEntry(fs, maxDepth, dir, e, depth, found);
  }

  /** What a walk adds. */
  ghost predicate Adds(before: Found, after: Found, inos: set<nat>, scanned: seq<Path>) {
    after.visited == before.visited + inos && after.scanned == before.scanned + scanned
  }

  lemma WalkDeepLink(found: Found)
    requires found.visited == {1, 2}
    ensures Adds(found, Walked(DeepLink(), 2, ["a", "l"], 2, found), {3}, [["b"]])
  {
    var e := Entry("c", true, false);
    assert Enter(DeepLink(), ["a", "l"], {1, 2}) == Some((["b"], {1, 2} + {3}));
    assert DeepLink().readDir(["b"]) == Some([e]);
    OneEntry(DeepLink(), 2, ["b"], e, 2, Scanned(found, {1, 2} + {3}, ["b"], [e]));
  }

  lemma WalkDeepFirst(found: Found)
    requires found.visited == {1}
    ensures Adds(found, Walked(DeepLink(), 2, ["a"], 1, found), {2, 3}, [["a"], ["b"]])
  {
    var e := Entry("l", false, true);
    assert Enter(DeepLink(), ["a"], {1}) == Some((["a"], {1} + {2}));
    assert DeepLink().readDir(["a"]) == Some([e]);
    var scanned := Scanned(found, {1} + {2}, ["a"], [e]);
    OneEntry(DeepLink(), 2, ["a"], e, 1, scanned);
    assert ["a"] + ["l"] == ["a", "l"];
    WalkDeepLink(scanned);
  }

  lemma WalkDeepAgain(found: Found)
    requires found.visited == {1, 2, 3}
    ensures Walked(DeepLink(), 2, ["b"], 1, found) == found
  {
    assert DeepLink().lstat(["b"]) == DirStat(3);
  }

  lemma EnterDeepRoot()
    ensures Enter(DeepLink(), [], {}) == Some(([], {1}))
    ensures DeepLink().readDir([]) == Some([Entry("a", true, false), Entry("b", true, false)])
  {
    assert {} + {1} == {1};
  }

  lemma WalkDeepRoot()
    ensures Walked(DeepLink(), 2, [], 0, NOTHING).scanned == [[], ["a"], ["b"]]
  {
    var a, b := Entry("a", true, false), Entry("b", true, false);
    EnterDeepRoot();
    var scanned := Scanned(NOTHING, {1}, [], [a, b]);
    TwoEntries(DeepLink(), 2, [], a, b, 0, scanned);
    assert [] + ["a"] == ["a"] && [] + ["b"] == ["b"];
    WalkDeepFirst(scanned);
    assert {1} + {2, 3} == {1, 2, 3};
    WalkDeepAgain(Walked(DeepLink(), 2, ["a"], 1, scanned));
  }

  lemma InTreeBelow(fs: Fs, dir: Path, e: Entry, below: seq<string>)
    requires fs.readDir(dir).Some? && e in fs.readDir(dir).value && IsWalked(e)
    requires InTree(fs, dir + [e.name], below)
    ensures InTree(fs, dir, [e.name] + below)
  {
    assert ([e.name] + below)[1..] == below;
  }

  lemma DeepLinkWithinTree()
    ensures WithinTree(DeepLink(), 2, [], ["b", "c"])
  {
    var b, c := Entry("b", true, false), Entry("c", true, false);
    assert DeepLink().readDir([]) == Some([Entry("a", true, false), b]) && DeepLink().readDir(["b"]) == Some([c]);
    assert |"b"| == |"c"| == 1 && |"node_modules"| == 12 && |"vendor"| == 6;
    InTreeBelow(DeepLink(), ["b"], c, []);
    assert ["c"] + [] == ["c"] && [] + ["b"] == ["b"] && ["b"] + ["c"] == ["b", "c"];
    InTreeBelow(DeepLink(), [], b, ["c"]);
    assert [] + ["b", "c"] == ["b", "c"];
  }

  lemma DeepLinkStats()
    ensures forall p :: p in [[], ["a"], ["b"]] ==> DeepLink().stat(p) != DirStat(4)
    ensures DeepLink().stat([]) == DirStat(1) && DeepLink().stat(["b", "c"]) == DirStat(4)
  {
  }

  /** With less depth it may not: "b" is come to through the link first, at the greatest depth, and not
      again, so that "c" is missed, although it is within the depth and no link leads there. */
  lemma DeepLinkHidesDirectory()
    ensures Faithful(DeepLink()) && DeepLink().stat([]) == DirStat(1)
    ensures WithinTree(DeepLink(), 2, [], ["b", "c"]) && DeepLink().stat(["b", "c"]) == DirStat(4)
    ensures !IsScanned(DeepLink(), Walked(DeepLink(), 2, [], 0, NOTHING).scanned, 4)
  {
    DeepLinkIsFaithful();
    DeepLinkWithinTree();
    WalkDeepRoot();
    DeepLinkStats();
  }

  // ----- the walk as it runs -----

  class FsScanner {
    const maxDepth: nat
    var visited: set<nat>
    var projects: seq<DiscoveredProject>
    ghost var scanned: seq<Path>

    constructor (maxDepth: nat)
      ensures this.maxDepth == maxDepth && State() == NOTHING
    {
      this.maxDepth, visited, projects, scanned := maxDepth, {}, [], [];
    }

    ghost function State(): Found
      reads this
    {
      Found(visited, scanned, projects)
    }

    /** walk; the result is false when the context ends, which it may do at any time. */
    method Walk(fs: Fs, current: Path, depth: nat) returns (ok: bool)
      requires Consistent(fs) && Sound(fs, visited, scanned)
      modifies this
      ensures ok ==> State() == Walked(fs, maxDepth, current, depth, old(State()))
      ensures Sound(fs, visited, scanned) && old(scanned) <= scanned
      decreases maxDepth + 1 - depth, 0
    {
      WalkedIsSound(fs, maxDepth, current, depth, State());
      if * {
        return false;
      }
      if depth > maxDepth {
        return true;
      }
      var dir := current;
      var info := fs.lstat(current);
      if info.NoStat? {
        return true;
      }
      if info.LinkStat? {
        var realPath := fs.evalSymlinks(current);
        if realPath.None? {
          return true;
        }
        var realInfo := fs.stat(realPath.value);
        if !realInfo.DirStat? || realInfo.ino in visited {
          return true;
        }
        visited := visited + {realInfo.ino};
        dir := realPath.value;
      } else if info.DirStat? {
        if info.ino in visited {
          return true;
        }
        visited := visited + {info.ino};
      }
      var entries := fs.readDir(dir);
      if entries.None? {
        return true;
      }
      assert Enter(fs, current, old(visited)) == Some((dir, visited));
      ScanningIsSound(fs, current, old(State()));
      scanned := scanned + [dir];
      CollectFiles(dir, entries.value);
      ok := WalkEntries(fs, dir, entries.value, depth);
    }

    /** The first loop of walk, over the names. */
    method CollectFiles(dir: Path, entries: seq<Entry>)
      modifies this`projects
      ensures projects == old(projects) + ProjectIn(dir, entries)
    {
      var composeFiles, envFiles := [], [];
      for i := 0 to |entries|
        invariant projects == old(projects)
        invariant composeFiles == ComposeFilesIn(dir, entries[..i]) && envFiles == EnvFilesIn(dir, entries[..i])
      {
        assert entries[..i + 1][..i] == entries[..i];
        var name := entries[i].name;
        var known := MatchNames(dir, name, COMPOSE_FILE_NAMES);
        var overrides := MatchNames(dir, name, OVERRIDE_PATTERNS);
        composeFiles := composeFiles + known + overrides;
        if name == ".env" {
          envFiles := envFiles + [dir + [name]];
        }
      }
      assert entries[..|entries|] == entries;
      if |composeFiles| > 0 {
        var ordered := DeduplicateAndOrder(composeFiles);
        projects := projects + [DiscoveredProject(dir, ordered, envFiles)];
      }
    }

    method MatchNames(dir: Path, name: string, names: seq<string>) returns (files: seq<Path>)
      ensures files == NameMatches(dir, name, names)
    {
      files := [];
      for i := 0 to |names|
        invariant files == NameMatches(dir, name, names[..i])
      {
        assert names[..i + 1][..i] == names[..i];
        if EqualFold(name, names[i]) {
          files := files + [dir + [name]];
        }
      }
      assert names[..|names|] == names;
    }

    /** The second loop of walk, over the directories. */
    method WalkEntries(fs: Fs, dir: Path, entries: seq<Entry>, depth: nat) returns (ok: bool)
      requires Consistent(fs) && Sound(fs, visited, scanned) && depth <= maxDepth
      modifies this
      ensures ok ==> State() == WalkedEntries(fs, maxDepth, dir, entries, depth, old(State()))
      ensures Sound(fs, visited, scanned) && old(scanned) <= scanned
      decreases maxDepth - depth, 1
    {
      for i := 0 to |entries|
        invariant State() == WalkedEntries(fs, maxDepth, dir, entries[..i], depth, old(State()))
        invariant Sound(fs, visited, scanned) && old(scanned) <= scanned
      {
        assert entries[..i + 1][..i] == entries[..i];
        var e := entries[i];
        if !e.isDir && !e.isLink {
          continue;
        }
        if IsSkipped(e.name) {
          continue;
        }
        var walked := Walk(fs, dir + [e.name], depth + 1);
        if !walked {
          return false;
        }
      }
      assert entries[..|entries|] == entries;
      ok := true;
    }
  }
}
