/** The file system scanner of internal/discovery/scanner.go. */
module Scanner {
  import opened Options

  /** An absolute path, as its components. */
  type Path = seq<string>

  datatype Stat = NoStat | LinkStat | DirStat(ino: nat) | PlainStat

  datatype Entry = Entry(name: string, isDir: bool, isLink: bool)

  /** What the scanner asks of the file system; stat follows links, lstat does not. */
  datatype Fs = Fs(
    lstat: Path -> Stat,
    stat: Path -> Stat,
    evalSymlinks: Path -> Option<Path>,
    readDir: Path -> Option<seq<Entry>>)

  datatype DiscoveredProject = DiscoveredProject(path: Path, composeFiles: seq<Path>, envFiles: seq<Path>)

  const COMPOSE_FILE_NAMES := ["docker-compose.yml", "docker-compose.yaml", "compose.yml", "compose.yaml"]

  const OVERRIDE_PATTERNS := [
    "docker-compose.override.yml", "docker-compose.override.yaml", "compose.override.yml", "compose.override.yaml"]

  // ----- names -----

  /** Simple case folding onto ASCII: the Kelvin sign and the long s fold to k and s. */
  function Fold(c: char): char {
    if 'A' <= c <= 'Z' then (c as int + 32) as char
    else if c == '\U{212A}' then 'k'
    else if c == '\U{017F}' then 's'
    else c
  }

  /** strings.EqualFold against a name in lower-case ASCII. */
  predicate EqualFold(name: string, lower: string) {
    |name| == |lower| && forall i :: 0 <= i < |name| ==> Fold(name[i]) == lower[i]
  }

  predicate IsSkipped(name: string) {
    (name != "" && name[0] == '.') || name == "node_modules" || name == "vendor"
  }

  predicate Contains(s: string, sub: string) {
    |sub| <= |s| && (s[..|sub|] == sub || Contains(s[1..], sub))
  }

  /** The test that the ordering uses: the base name contains the word in lower case. */
  predicate IsOverride(file: Path) {
    file != [] && Contains(file[|file| - 1], "override")
  }

  /** The word "override" stands somewhere in the name, in lower case. */
  ghost predicate HasWord(name: string) {
    exists before, after :: name == before + "override" + after
  }

  /** The file's own name has that word. */
  ghost predicate SaysOverride(file: Path) {
    file != [] && HasWord(file[|file| - 1])
  }

  lemma {:induction false} ContainsParts(s: string, sub: string) returns (before: string, after: string)
    requires Contains(s, sub)
    ensures s == before + sub + after
    decreases |s|
  {
    if s[..|sub|] == sub {
      before, after := "", s[|sub|..];
    } else {
      before, after := ContainsParts(s[1..], sub);
      before := [s[0]] + before;
    }
  }

  lemma {:induction false} PartsContain(before: string, sub: string, after: string)
    ensures Contains(before + sub + after, sub)
  {
    var s := before + sub + after;
    if before == "" {
      assert s[..|sub|] == sub;
    } else {
      assert s[1..] == before[1..] + sub + after;
      PartsContain(before[1..], sub, after);
    }
  }

  lemma OverrideIff(file: Path)
    ensures IsOverride(file) <==> SaysOverride(file)
  {
    if SaysOverride(file) {
      var before, after :| file[|file| - 1] == before + "override" + after;
      PartsContain(before, "override", after);
    }
    if IsOverride(file) {
      var before, after := ContainsParts(file[|file| - 1], "override");
    }
  }

  /** The name has, character by character, the letters of a lower-case one in either case: upper-case
      letters are 32 less, and the Kelvin sign counts as a k and the long s as an s. */
  ghost predicate IsSpelled(name: string, lower: string) {
    |name| == |lower| &&
    forall i :: 0 <= i < |name| ==>
      || name[i] == lower[i]
      || (65 <= name[i] as int <= 90 && name[i] as int + 32 == lower[i] as int)
      || (name[i] as int == 0x212A && lower[i] == 'k')
      || (name[i] as int == 0x17F && lower[i] == 's')
  }

  /** The names that are looked for, in any case. */
  ghost predicate IsPrimaryName(name: string) {
    IsSpelled(name, "docker-compose.yml") || IsSpelled(name, "docker-compose.yaml")
    || IsSpelled(name, "compose.yml") || IsSpelled(name, "compose.yaml")
  }

  ghost predicate IsOverrideName(name: string) {
    IsSpelled(name, "docker-compose.override.yml") || IsSpelled(name, "docker-compose.override.yaml")
    || IsSpelled(name, "compose.override.yml") || IsSpelled(name, "compose.override.yaml")
  }

  /** In lower case, and in ASCII. */
  predicate IsLower(name: string) {
    forall i :: 0 <= i < |name| ==> name[i] == '-' || name[i] == '.' || 'a' <= name[i] <= 'z'
  }

  lemma EqualFoldIff(name: string, lower: string)
    requires IsLower(lower)
    ensures EqualFold(name, lower) <==> IsSpelled(name, lower)
  {
    if |name| == |lower| {
      forall i | 0 <= i < |name|
        ensures Fold(name[i]) == lower[i] <==>
                || name[i] == lower[i]
                || (65 <= name[i] as int <= 90 && name[i] as int + 32 == lower[i] as int)
                || (name[i] as int == 0x212A && lower[i] == 'k')
                || (name[i] as int == 0x17F && lower[i] == 's')
      {
        FoldIff(name[i], lower[i]);
      }
    }
  }

  lemma FoldIff(c: char, l: char)
    requires l == '-' || l == '.' || 'a' <= l <= 'z'
    ensures Fold(c) == l <==>
            || c == l
            || (65 <= c as int <= 90 && c as int + 32 == l as int)
            || (c as int == 0x212A && l == 'k')
            || (c as int == 0x17F && l == 's')
  {
    assert '\U{212A}' as int == 0x212A && '\U{017F}' as int == 0x17F;
    assert (c as int == 0x212A ==> c == '\U{212A}') && (c as int == 0x17F ==> c == '\U{017F}');
  }

  /** Any of four names in lower case, told by EqualFold. */
  lemma OneOfFour(name: string, names: seq<string>)
    requires |names| == 4 && forall i :: 0 <= i < 4 ==> IsLower(names[i])
    ensures (exists n :: n in names && EqualFold(name, n)) <==>
            || IsSpelled(name, names[0]) || IsSpelled(name, names[1])
            || IsSpelled(name, names[2]) || IsSpelled(name, names[3])
  {
    EqualFoldIff(name, names[0]);
    EqualFoldIff(name, names[1]);
    EqualFoldIff(name, names[2]);
    EqualFoldIff(name, names[3]);
  }

  /** The names in the lists are those, and are told by EqualFold. */
  lemma NamesIff(name: string)
    ensures IsPrimaryName(name) <==> exists n :: n in COMPOSE_FILE_NAMES && EqualFold(name, n)
    ensures IsOverrideName(name) <==> exists n :: n in OVERRIDE_PATTERNS && EqualFold(name, n)
  {
    PrimaryNamesIff(name);
    OverrideNamesIff(name);
  }

  lemma PrimaryNamesIff(name: string)
    ensures IsPrimaryName(name) <==> exists n :: n in COMPOSE_FILE_NAMES && EqualFold(name, n)
  {
    assert IsLower(COMPOSE_FILE_NAMES[0]);
    assert IsLower(COMPOSE_FILE_NAMES[1]);
    assert IsLower(COMPOSE_FILE_NAMES[2]);
    assert IsLower(COMPOSE_FILE_NAMES[3]);
    OneOfFour(name, COMPOSE_FILE_NAMES);
  }

  lemma OverrideNamesLower()
    ensures |OVERRIDE_PATTERNS| == 4 && forall i :: 0 <= i < 4 ==> IsLower(OVERRIDE_PATTERNS[i])
  {
    assert IsLower(OVERRIDE_PATTERNS[0]);
    assert IsLower(OVERRIDE_PATTERNS[1]);
    assert IsLower(OVERRIDE_PATTERNS[2]);
    assert IsLower(OVERRIDE_PATTERNS[3]);
  }

  lemma OverrideNamesIff(name: string)
    ensures IsOverrideName(name) <==> exists n :: n in OVERRIDE_PATTERNS && EqualFold(name, n)
  {
    OverrideNamesLower();
    OneOfFour(name, OVERRIDE_PATTERNS);
  }

  ghost predicate IsPrimaryFile(file: Path) {
    file != [] && IsPrimaryName(file[|file| - 1])
  }

  ghost predicate IsOverrideFile(file: Path) {
    file != [] && IsOverrideName(file[|file| - 1])
  }

  lemma {:induction false} ContainsChars(s: string, sub: string, c: char)
    requires Contains(s, sub) && c in sub
    ensures c in s
    decreases |s|
  {
    if s[..|sub|] == sub {
      var i :| 0 <= i < |sub| && sub[i] == c;
      assert s[i] == s[..|sub|][i];
    } else {
      ContainsChars(s[1..], sub, c);
    }
  }

  lemma NoLowerCase(name: string)
    requires 'v' !in name
    ensures !Contains(name, "override")
  {
    if Contains(name, "override") {
      assert "override"[1] == 'v';
      ContainsChars(name, "override", 'v');
    }
  }

  /** A primary name has no v. */
  lemma PrimaryIsNoOverride(file: Path)
    requires IsPrimaryFile(file)
    ensures !IsOverride(file)
  {
    var name := file[|file| - 1];
    NamesIff(name);
    var n :| n in COMPOSE_FILE_NAMES && EqualFold(name, n);
    assert 'v' !in n;
    forall i | 0 <= i < |name| ensures name[i] != 'v' {
      assert n[i] in n;
    }
    NoLowerCase(name);
  }

  // ----- deduplicateAndOrder -----

  /** The first occurrences. */
  function Firsts<T(==)>(s: seq<T>): seq<T> {
    if s == [] then []
    else
      var before, last := s[..|s| - 1], s[|s| - 1];
      Firsts(before) + if last in before then [] else [last]
  }

  function OfClass(s: seq<Path>, override: bool): seq<Path> {
    if s == [] then []
    else OfClass(s[..|s| - 1], override) + if IsOverride(s[|s| - 1]) == override then [s[|s| - 1]] else []
  }

  function Ordered(files: seq<Path>): seq<Path> {
    OfClass(Firsts(files), false) + OfClass(Firsts(files), true)
  }

  method DeduplicateAndOrder(files: seq<Path>) returns (r: seq<Path>)
    ensures r == Ordered(files)
  {
    var seen := {};
    var primary, overrides := [], [];
    for i := 0 to |files|
      invariant forall f :: f in seen <==> f in files[..i]
      invariant primary == OfClass(Firsts(files[..i]), false)
      invariant overrides == OfClass(Firsts(files[..i]), true)
    {
      var f := files[i];
      ClassesMore(files[..i], f);
      assert files[..i + 1] == files[..i] + [f];
      if f in seen {
        continue;
      }
      seen := seen + {f};
      if IsOverride(f) {
        overrides := overrides + [f];
      } else {
        primary := primary + [f];
      }
    }
    assert files[..|files|] == files;
    r := primary + overrides;
  }

  lemma ClassesMore(files: seq<Path>, f: Path)
    ensures forall override :: OfClass(Firsts(files + [f]), override) == OfClass(Firsts(files), override) +
              if f !in files && IsOverride(f) == override then [f] else []
  {
    FirstsMore(files, f);
    OfClassMore(Firsts(files), f, false);
    OfClassMore(Firsts(files), f, true);
    assert Firsts(files) + [] == Firsts(files);
  }

  lemma FirstsMore<T>(s: seq<T>, x: T)
    ensures Firsts(s + [x]) == Firsts(s) + if x in s then [] else [x]
  {
  }

  lemma OfClassMore(s: seq<Path>, x: Path, override: bool)
    ensures OfClass(s + [x], override) == OfClass(s, override) + if IsOverride(x) == override then [x] else []
  {
  }

  /** Where an element occurs first; the length when it does not. */
  function FirstIndex<T(==)>(s: seq<T>, x: T): (i: nat)
    ensures i <= |s| && (i < |s| <==> x in s)
    ensures i < |s| ==> s[i] == x
  {
    if s == [] then 0
    else
      var before := s[..|s| - 1];
      var i := FirstIndex(before, x);
      if i < |before| then i else if s[|s| - 1] == x then |before| else |s|
  }

  ghost predicate NoRepeats<T(!new)>(s: seq<T>) {
    forall i, j :: 0 <= i < j < |s| ==> s[i] != s[j]
  }

  lemma {:induction false} FirstsKeep<T(!new)>(s: seq<T>)
    ensures NoRepeats(Firsts(s))
    ensures forall x :: x in Firsts(s) <==> x in s
  {
    if s == [] {
    } else {
      var before := s[..|s| - 1];
      FirstsKeep(before);
      assert s == before + [s[|s| - 1]];
    }
  }

  lemma {:induction false} FirstsOrder<T(!new)>(s: seq<T>, x: T, y: T)
    requires x in s && y in s && FirstIndex(s, x) < FirstIndex(s, y)
    ensures FirstIndex(Firsts(s), x) < FirstIndex(Firsts(s), y)
  {
    var before, last := s[..|s| - 1], s[|s| - 1];
    assert s == before + [last];
    FirstIndexMore(before, last, x);
    FirstIndexMore(before, last, y);
    FirstsHave(before, x);
    FirstsHave(before, y);
    if last in before {
      FirstsOrder(before, x, y);
      assert Firsts(s) == Firsts(before);
    } else {
      FirstIndexMore(Firsts(before), last, x);
      FirstIndexMore(Firsts(before), last, y);
      if y in before {
        FirstsOrder(before, x, y);
      }
    }
  }

  lemma FirstsHave<T(!new)>(s: seq<T>, x: T)
    ensures x in Firsts(s) <==> x in s
  {
    FirstsKeep(s);
  }

  lemma FirstIndexMore<T>(s: seq<T>, last: T, x: T)
    ensures FirstIndex(s + [last], x) == if x in s then FirstIndex(s, x) else if x == last then |s| else |s| + 1
  {
  }

  lemma {:induction false} OfClassKeeps(s: seq<Path>, override: bool)
    ensures forall x :: x in OfClass(s, override) <==> x in s && IsOverride(x) == override
    ensures NoRepeats(s) ==> NoRepeats(OfClass(s, override))
  {
    if s == [] {
    } else {
      var before := s[..|s| - 1];
      OfClassKeeps(before, override);
      assert s == before + [s[|s| - 1]];
      assert NoRepeats(s) ==> s[|s| - 1] !in before;
    }
  }

  lemma {:induction false} OfClassOrder(s: seq<Path>, override: bool, x: Path, y: Path)
    requires x in s && y in s && FirstIndex(s, x) < FirstIndex(s, y)
    requires IsOverride(x) == IsOverride(y) == override
    ensures FirstIndex(OfClass(s, override), x) < FirstIndex(OfClass(s, override), y)
  {
    var before, last := s[..|s| - 1], s[|s| - 1];
    assert s == before + [last];
    FirstIndexMore(before, last, x);
    FirstIndexMore(before, last, y);
    OfClassKeeps(before, override);
    OfClassMore(before, last, override);
    var chosen := OfClass(before, override);
    FirstIndexMore(chosen, last, x);
    FirstIndexMore(chosen, last, y);
    if y in before {
      OfClassOrder(before, override, x, y);
      assert OfClass(s, override) == chosen || OfClass(s, override) == chosen + [last];
    } else {
      assert OfClass(s, override) == chosen + [last];
    }
  }

  lemma {:induction false} FirstIndexConcat<T>(a: seq<T>, b: seq<T>, x: T)
    ensures FirstIndex(a + b, x) == if x in a then FirstIndex(a, x) else |a| + FirstIndex(b, x)
  {
    if b == [] {
      assert a + b == a;
    } else {
      var n := |b| - 1;
      assert a + b == (a + b[..n]) + [b[n]] && b == b[..n] + [b[n]];
      FirstIndexConcat(a, b[..n], x);
      FirstIndexMore(a + b[..n], b[n], x);
    }
  }

  /** The files come out without repeats, none lost, those whose name has the word "override" behind
      all others, and otherwise in the order of their first occurrence. */
  lemma OrderedIsStable(files: seq<Path>)
    ensures NoRepeats(Ordered(files))
    ensures forall f :: f in Ordered(files) <==> f in files
    ensures forall x, y :: x in files && y in files && !SaysOverride(x) && SaysOverride(y) ==>
              FirstIndex(Ordered(files), x) < FirstIndex(Ordered(files), y)
    ensures forall x, y ::
              (x in files && y in files && SaysOverride(x) == SaysOverride(y)
               && FirstIndex(files, x) < FirstIndex(files, y)
               ==> FirstIndex(Ordered(files), x) < FirstIndex(Ordered(files), y))
  {
    OrderedByClass(files);
    forall x ensures IsOverride(x) <==> SaysOverride(x) {
      OverrideIff(x);
    }
  }

  lemma OrderedByClass(files: seq<Path>)
    ensures NoRepeats(Ordered(files))
    ensures forall f :: f in Ordered(files) <==> f in files
    ensures forall x, y :: x in files && y in files && !IsOverride(x) && IsOverride(y) ==>
              FirstIndex(Ordered(files), x) < FirstIndex(Ordered(files), y)
    ensures forall x, y ::
              (x in files && y in files && IsOverride(x) == IsOverride(y) && FirstIndex(files, x) < FirstIndex(files, y)
               ==> FirstIndex(Ordered(files), x) < FirstIndex(Ordered(files), y))
  {
    FirstsKeep(files);
    var s := Firsts(files);
    var a, b := OfClass(s, false), OfClass(s, true);
    OfClassKeeps(s, false);
    OfClassKeeps(s, true);
    assert NoRepeats(a + b) by {
      forall i, j | 0 <= i < j < |a + b| ensures (a + b)[i] != (a + b)[j] {
        if i < |a| <= j {
          assert a[i] in a && b[j - |a|] in b;
        }
      }
    }
    forall x, y | x in files && y in files && !IsOverride(x) && IsOverride(y)
      ensures FirstIndex(a + b, x) < FirstIndex(a + b, y)
    {
      FirstIndexConcat(a, b, x);
      FirstIndexConcat(a, b, y);
    }
    forall x, y | x in files && y in files && IsOverride(x) == IsOverride(y)
                  && FirstIndex(files, x) < FirstIndex(files, y)
      ensures FirstIndex(a + b, x) < FirstIndex(a + b, y)
    {
      FirstsOrder(files, x, y);
      OfClassOrder(s, IsOverride(x), x, y);
      FirstIndexConcat(a, b, x);
      FirstIndexConcat(a, b, y);
    }
  }

  /** In this order of files, those with an override name come behind all with a primary name. */
  ghost predicate OverridesLast(files: seq<Path>) {
    forall x, y :: x in files && y in files && IsPrimaryFile(x) && IsOverrideFile(y) ==>
      FirstIndex(files, x) < FirstIndex(files, y)
  }

  /** The overrides that the ordering takes for primary files, as they are not in lower case, come
      behind all primary files anyway. */
  ghost predicate UnseenOverridesLast(files: seq<Path>) {
    forall x, y :: x in files && y in files && IsPrimaryFile(x) && IsOverrideFile(y) && !SaysOverride(y) ==>
      FirstIndex(files, x) < FirstIndex(files, y)
  }

  /** Two files that the ordering takes for the same kind keep their order. */
  lemma SameKindKeepsOrder(files: seq<Path>, x: Path, y: Path)
    requires x in files && y in files && SaysOverride(x) == SaysOverride(y)
    ensures FirstIndex(Ordered(files), x) < FirstIndex(Ordered(files), y)
            <==> FirstIndex(files, x) < FirstIndex(files, y)
  {
    OrderedIsStable(files);
    if FirstIndex(files, x) == FirstIndex(files, y) {
      assert x == y;
    }
  }

  /** Overrides come out behind all primary files exactly if those that are not in lower case were
      listed behind them. */
  lemma OverridesLastIff(files: seq<Path>)
    ensures OverridesLast(Ordered(files)) <==> UnseenOverridesLast(files)
  {
    OrderedIsStable(files);
    forall x, y | x in files && y in files && IsPrimaryFile(x) && IsOverrideFile(y)
      ensures FirstIndex(Ordered(files), x) < FirstIndex(Ordered(files), y)
              <==> SaysOverride(y) || FirstIndex(files, x) < FirstIndex(files, y)
    {
      PrimaryIsNoOverride(x);
      OverrideIff(x);
      if !SaysOverride(y) {
        SameKindKeepsOrder(files, x, y);
      }
    }
  }

  lemma TwoFirsts<T>(x: T, y: T)
    requires x != y
    ensures Firsts([x, y]) == [x, y]
  {
    assert [x, y][..1] == [x];
    assert Firsts([x]) == [x];
  }

  lemma TwoOfClass(x: Path, y: Path, override: bool)
    requires !IsOverride(x) && !IsOverride(y)
    ensures OfClass([x, y], override) == if override then [] else [x, y]
  {
    assert [x, y][..1] == [x];
    assert OfClass([x], override) == if override then [] else [x];
  }

  /** Two files that the ordering takes for primary ones stay as they are. */
  lemma TwoUnseen(x: Path, y: Path)
    requires x != y && !IsOverride(x) && !IsOverride(y)
    ensures Ordered([x, y]) == [x, y]
  {
    TwoFirsts(x, y);
    TwoOfClass(x, y, false);
    TwoOfClass(x, y, true);
    assert [x, y] + [] == [x, y];
  }

  lemma UnseenStaysFirst(x: Path, y: Path)
    requires x != y && IsOverrideFile(x) && !IsOverride(x) && IsPrimaryFile(y)
    ensures Ordered([x, y]) == [x, y] && !OverridesLast([x, y])
  {
    PrimaryIsNoOverride(y);
    TwoUnseen(x, y);
    assert [x, y] == [x] + [y];
    FirstIndexMore([x], y, x);
    FirstIndexMore([x], y, y);
  }

  lemma MixedCaseName()
    ensures IsOverrideName("compose.OVERRIDE.yml")
  {
    assert IsSpelled("compose.OVERRIDE.yml", "compose.override.yml");
  }

  lemma PlainName()
    ensures IsPrimaryName("compose.yml")
  {
    assert IsSpelled("compose.yml", "compose.yml");
  }

  lemma UnseenNameStaysFirst(dir: Path, x: string, y: string)
    requires IsOverrideName(x) && 'v' !in x && IsPrimaryName(y) && |x| != |y|
    ensures var files := [dir + [x], dir + [y]];
            IsOverrideFile(files[0]) && IsPrimaryFile(files[1]) && Ordered(files) == files && !OverridesLast(files)
  {
    NoLowerCase(x);
    assert (dir + [x])[|dir|] == x && (dir + [y])[|dir|] == y;
    UnseenStaysFirst(dir + [x], dir + [y]);
  }

  /** The failing case: an override that is not in lower case stays before the file that it is to
      override. */
  lemma MixedCaseOverrideIsFirst(dir: Path)
    ensures var files := [dir + ["compose.OVERRIDE.yml"], dir + ["compose.yml"]];
            IsOverrideFile(files[0]) && IsPrimaryFile(files[1]) && Ordered(files) == files && !OverridesLast(files)
  {
    MixedCaseName();
    PlainName();
    UnseenNameStaysFirst(dir, "compose.OVERRIDE.yml", "compose.yml");
  }
}
