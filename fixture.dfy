/**
 * The tree the walker's own test builds, walked by the model: a root with a
 * `.git` directory, a `package.json` and `node_modules` holding `pkg1`, a
 * backup copy `pkg1~backup-12345` and `pkg2`, whose `.gitignore` names
 * `/module1.js`. The walk runs with dependencies included, `.distignore` not
 * consulted and nested ignore files respected; every file has modification
 * time 1.
 *
 * The proofs go level by level: each directory's walk is stated for any
 * counters and any traversed set, and each decision of `ignore` is its own
 * lemma, so that no proof evaluates the whole tree at once.
 */
module WalkerFixture {
  import opened Base
  import opened Props
  import opened Rules
  import opened Walker
  import Glob

  const Opts := Options(true, false, true)

  /** The text before the first `*` when it sits at `n`. */
  lemma KeyTextAt(rule: string, n: nat)
    requires n <= |rule| && (n < |rule| ==> rule[n] == '*')
    requires forall i | 0 <= i < n :: rule[i] != '*'
    ensures KeyText(rule) == rule[..n]
  {
    var k := KeyText(rule);
    if n < |rule| {
      assert rule[n] == '*';
    }
    if |k| < |rule| {
      assert rule[|k|] == '*';
    }
  }

  lemma NotIndex(k: string)
    requires k == [] || !IsDigit(k[0])
    ensures !IsArrayIndex(k)
  {
  }

  /** A new non-index key goes at the end. */
  lemma PutNew<V>(o: Props<V>, k: string, v: V)
    requires forall i | 0 <= i < |o| :: o[i].0 != k
    requires k == [] || !IsDigit(k[0])
    ensures Put(o, k, v) == o + [(k, v)]
  {
    NotIndex(k);
    FindSpec(o, k);
  }

  /** A filed rule under a new non-index key opens a group of its own at the end of the table. */
  lemma InsertNewKey(st: Loading, rule: string, subPath: string, opts: Options, s: Scope, key: string, text: string)
    requires Place(rule, subPath, opts.includeDependencies) == Filed(s, key, text)
    requires forall i | 0 <= i < |TableOf(st.rules, s)| :: TableOf(st.rules, s)[i].0 != key
    requires key == [] || !IsDigit(key[0])
    ensures Insert(st, rule, subPath, opts) ==
      Loading(WithTable(st.rules, s, TableOf(st.rules, s) + [(key, [text])]), st.stats.(ignoreRulesCount := st.stats.ignoreRulesCount + 1))
  {
    var t := TableOf(st.rules, s);
    FindAbsent(t, key);
    assert Get(t, key).GetOr([]) + [text] == [text];
    PutNew(t, key, [text]);
  }

  /** A rule with neither `!` nor a leading `/`, whose first `*` is at `n`, is an `every` rule keyed by its text before `n`. */
  lemma PlaceEveryAt(rule: string, subPath: string, idep: bool, n: nat)
    requires rule != [] && rule[0] != '!' && rule[0] != '/' && !IsDependencyRule(rule)
    requires n <= |rule| && (n < |rule| ==> rule[n] == '*')
    requires forall i | 0 <= i < n :: rule[i] != '*'
    ensures Place(rule, subPath, idep) == Filed(Every, rule[..n], rule)
  {
    KeyTextAt(rule, n);
  }

  /** A rule with a leading `/` and no `*` is a `top` rule keyed by itself, below `subPath`. */
  lemma PlaceTop(rule: string, subPath: string, idep: bool)
    requires rule != [] && rule[0] == '/' && '*' !in rule && !IsDependencyRule(rule)
    ensures Place(rule, subPath, idep) == Filed(Top, subPath + rule, rule)
  {
    KeyTextAt(rule, |rule|);
    assert rule[..|rule|] == rule;
  }

  const R0 := RuleTables([("/dist/", ["/dist/"])], [(".", [".*"]), ("", ["*~backup-*"]), ("program.dev.json", ["program.dev.json"])], [], Some("default"))

  const D0 := Loading(RuleTables([], [], [], Some("default")), NoStats)
  const D1 := Loading(RuleTables([], [(".", [".*"])], [], Some("default")), Stats(1, 0, 0, 0))
  const D2 := Loading(RuleTables([], [(".", [".*"]), ("", ["*~backup-*"])], [], Some("default")), Stats(2, 0, 0, 0))
  const D3 := Loading(RuleTables([("/dist/", ["/dist/"])], [(".", [".*"]), ("", ["*~backup-*"])], [], Some("default")), Stats(3, 0, 0, 0))

  lemma Default1() ensures Insert(D0, ".*", "", Opts) == D1 {
    PlaceEveryAt(".*", "", true, 1);
    InsertNewKey(D0, ".*", "", Opts, Every, ".", ".*");
  }

  lemma Default2() ensures Insert(D1, "*~backup-*", "", Opts) == D2 {
    PlaceEveryAt("*~backup-*", "", true, 0);
    InsertNewKey(D1, "*~backup-*", "", Opts, Every, "", "*~backup-*");
  }

  lemma Default3() ensures Insert(D2, "/dist/", "", Opts) == D3 {
    PlaceTop("/dist/", "", true);
    InsertNewKey(D2, "/dist/", "", Opts, Top, "/dist/", "/dist/");
  }

  /** A plain rule under a key not yet present opens its own `every` group at the end. */
  lemma InsertPlainNew(st: Loading, rule: string, subPath: string, opts: Options)
    requires '*' !in rule && !StartsWith(rule, '!') && !StartsWith(rule, '/') && !IsDependencyRule(rule)
    requires forall i | 0 <= i < |st.rules.every| :: st.rules.every[i].0 != rule
    requires rule == [] || !IsDigit(rule[0])
    ensures Insert(st, rule, subPath, opts) ==
      Loading(st.rules.(every := st.rules.every + [(rule, [rule])]), st.stats.(ignoreRulesCount := st.stats.ignoreRulesCount + 1))
  {
    PlacePlain(rule, subPath, opts.includeDependencies);
    InsertNewKey(st, rule, subPath, opts, Every, rule, rule);
  }

  lemma Default4() ensures Insert(D3, "program.dev.json", "", Opts) == Loading(R0, Stats(4, 0, 0, 0)) {
    InsertPlainNew(D3, "program.dev.json", "", Opts);
  }

  lemma RootDefaults()
    ensures Defaults(Loading(Rules.Empty, NoStats), "", Opts) == Loading(R0, Stats(4, 0, 0, 0))
  {
    Default1();
    Default2();
    Default3();
    Default4();
  }

  // ----- matcher facts

  /** `.*` accepts anything that starts with a dot. */
  lemma DotStar(s: string)
    requires s != [] && s[0] == '.'
    ensures Glob.Accepts(".*", s)
  {
    assert ".*"[1..] == "*";
    assert Glob.AtStart("*", s[1..]) by {
      assert "*"[1..] == [];
    }
    assert Glob.AtStart(".*", s);
  }

  /** A pattern holding a literal character cannot match at a start position whose text lacks it. */
  lemma {:induction false} AtStartNeeds(p: string, s: string, c: char)
    requires c in p && c != '*' && c !in s
    ensures !Glob.AtStart(p, s)
    decreases |p| + |s|
  {
    assert p == [p[0]] + p[1..];
    if s != [] {
      assert s == [s[0]] + s[1..];
    }
    if p[0] == '*' {
      AtStartNeeds(p[1..], s, c);
      if s != [] {
        AtStartNeeds(p, s[1..], c);
      }
    } else if p[0] != c && s != [] {
      AtStartNeeds(p[1..], s[1..], c);
    }
  }

  lemma {:induction false} SomewhereNeeds(p: string, s: string, c: char)
    requires c in p && c != '*' && c !in s
    ensures !Glob.Somewhere(p, s)
    decreases |s|
  {
    AtStartNeeds(p, s, c);
    if s != [] {
      assert s == [s[0]] + s[1..];
      SomewhereNeeds(p, s[1..], c);
    }
  }

  /** Only a path with a `~` can hold a backup rule's match. */
  lemma NoTilde(rule: string, path: string)
    requires '~' in rule && '~' !in path
    ensures !Glob.Accepts(rule, path)
  {
    SomewhereNeeds(rule, path, '~');
  }

  lemma BackupMatches()
    ensures Glob.Accepts("*~backup-*", "pkg1~backup-12345/")
  {
    var path := "pkg1~backup-12345/";
    assert Glob.Whole("*", []);
    assert Glob.Whole("~backup-*", "~backup-");
    assert Glob.Whole("*~backup-*", "~backup-");
    assert path[4..12] == "~backup-";
    Glob.AcceptsIff("*~backup-*", path);
  }

  // ----- the tree of the walker test

  const F := File(1, 0, "")
  const Pkg1 := Dir(1, Listed([("module1.js", F), ("package.json", F)]))
  const Backup := Dir(1, Listed([("package.json", F)]))
  const Pkg2 := Dir(1, Listed([(".gitignore", File(1, 11, "/module1.js")), ("module1.js", F), ("package.json", F)]))
  const NodeModules := Dir(1, Listed([("pkg1", Pkg1), ("pkg1~backup-12345", Backup), ("pkg2", Pkg2)]))
  const GitDir := Dir(1, Listed([("HEAD", F)]))
  const Root := Dir(1, Listed([(".git", GitDir), ("node_modules", NodeModules), ("package.json", F)]))
  /** A file step that counts an ignored file. */
  function IgnoredOne(acc: Walked): Walked {
    Walked(acc.list, acc.stats.(totalFiles := acc.stats.totalFiles + 1, ignoredFiles := acc.stats.ignoredFiles + 1), acc.traversed)
  }

  /** A file step that records `path`. */
  function KeptOne(acc: Walked, path: string): Walked {
    Walked(acc.list[path := FileEntry(1, 0)], acc.stats.(totalFiles := acc.stats.totalFiles + 1, totalSize := acc.stats.totalSize + 1), acc.traversed)
  }

  const C := Ctx("/tmp/walker-1", Opts, {"/tmp/walker-1/.git"})

  /** A directory without candidate files keeps the inherited rules when they already have a file name. */
  lemma NoIgnoreFile(st: Loading, listing: Listing, subPath: string)
    requires st.rules.filename.Some?
    requires forall j | 0 <= j < |Candidates(subPath, Opts)| :: Lookup(listing, Candidates(subPath, Opts)[j]).None?
    ensures LoadRules(st, listing, C, subPath) == Ok(st)
  {
    LoadRulesNamed(st, listing, C, subPath);
  }

  /** With no include rules and no `top` key a prefix of the path, the `every` table decides. */
  lemma EveryDecides(rs: RuleTables, subPath: string, basename: string, isDir: bool)
    requires rs.includes == []
    requires forall j | 0 <= j < |rs.top| :: !(rs.top[j].0 <= EntryPath(subPath, basename, isDir))
    ensures Ignored(rs, subPath, basename, isDir) == Selects(rs.every, EntryName(basename, isDir))
  {
    SelectNone(rs.includes, EntryPath(subPath, basename, isDir));
    SelectNone(rs.top, EntryPath(subPath, basename, isDir));
  }

  /** A name with no dot in front and no `~` falls to the `""` group of the root rules, whose backup rule rejects it. */
  lemma PlainKept(name: string)
    requires name != [] && name[0] != '.' && '~' !in name && name != "program.dev.json"
    ensures !Selects(R0.every, name)
  {
    SelectFirstPrefix(R0.every, name, 1);
    NoTilde("*~backup-*", name);
  }

  /** Two strings that differ at `i` are not prefix of one another there. */
  lemma DiffersAt(a: string, b: string, i: nat)
    requires i < |a| && i < |b| && a[i] != b[i]
    ensures !(a <= b)
  {
  }

  /** A kept file of the fixture (mtime 1, size 0) is recorded and counted. */
  lemma KeptFile(name: string, rules: RuleTables, sp: string, acc: Walked)
    requires !Ignored(rules, sp, name, false)
    ensures Step(name, F, rules, C, sp, acc) == Ok(KeptOne(acc, sp + "/" + name))
  {
  }

  lemma Pkg1Rules(st: Stats)
    ensures LoadRules(Loading(R0, st), ListingOf(Pkg1), C, "/node_modules/pkg1") == Ok(Loading(R0, st))
  {
    NoIgnoreFile(Loading(R0, st), Pkg1.listing, "/node_modules/pkg1");
  }

  /** A file whose root-relative path does not begin `/d` and whose name has no dot in front and no `~` is kept by the root rules. */
  lemma R0FileKept(sp: string, name: string)
    requires name != [] && name[0] != '.' && '~' !in name && name != "program.dev.json"
    requires (|sp| >= 2 && sp[1] != 'd') || (sp == [] && name[0] != 'd')
    ensures !Ignored(R0, sp, name, false)
  {
    assert EntryPath(sp, name, false)[1] == if sp == [] then name[0] else sp[1];
    DiffersAt("/dist/", EntryPath(sp, name, false), 1);
    EveryDecides(R0, sp, name, false);
    assert EntryName(name, false) == name;
    PlainKept(name);
  }

  /** Both files of `pkg1` are kept by the root's rules. */
  lemma Pkg1FilesKept()
    ensures !Ignored(R0, "/node_modules/pkg1", "module1.js", false)
    ensures !Ignored(R0, "/node_modules/pkg1", "package.json", false)
  {
    R0FileKept("/node_modules/pkg1", "module1.js");
    R0FileKept("/node_modules/pkg1", "package.json");
  }


  /** A directory holding two kept fixture files and no ignore file. */
  lemma TwoKept(dir: Node, rules: RuleTables, sp: string, n1: string, n2: string, st: Stats, tr: set<string>)
    requires dir.Dir? && dir.listing == Listed([(n1, F), (n2, F)])
    requires LoadRules(Loading(rules, st), dir.listing, C, sp) == Ok(Loading(rules, st))
    requires !Ignored(rules, sp, n1, false) && !Ignored(rules, sp, n2, false)
    ensures WalkDir(dir, rules, C, sp, st, tr) == Ok(KeptOne(KeptOne(Walked(map[], st, tr), sp + "/" + n1), sp + "/" + n2))
  {
    var a0 := Walked(map[], st, tr);
    KeptFile(n1, rules, sp, a0);
    assert Fold(dir, rules, C, sp, a0, 0) == Ok(a0);
    assert Fold(dir, rules, C, sp, a0, 1) == Ok(KeptOne(a0, sp + "/" + n1));
    KeptFile(n2, rules, sp, KeptOne(a0, sp + "/" + n1));
  }

  const NMPath := "/node_modules"
  const Pkg1Path := "/node_modules/pkg1"

  /** What the walk of pkg1 adds: its two files. */
  function P1(st: Stats, tr: set<string>): Walked {
    KeptOne(KeptOne(Walked(map[], st, tr), Pkg1Path + "/" + "module1.js"), Pkg1Path + "/" + "package.json")
  }

  lemma Pkg1Walk(st: Stats, tr: set<string>)
    ensures WalkDir(Pkg1, R0, C, Pkg1Path, st, tr) == Ok(P1(st, tr))
  {
    Pkg1Rules(st);
    Pkg1FilesKept();
    TwoKept(Pkg1, R0, Pkg1Path, "module1.js", "package.json", st, tr);
  }

  /** A filed rule under a key already present is appended to that group in place. */
  lemma InsertOldKey(st: Loading, rule: string, subPath: string, opts: Options, s: Scope, key: string, text: string, i: nat)
    requires Place(rule, subPath, opts.includeDependencies) == Filed(s, key, text)
    requires i < |TableOf(st.rules, s)| && TableOf(st.rules, s)[i].0 == key
    requires forall j | 0 <= j < i :: TableOf(st.rules, s)[j].0 != key
    ensures Insert(st, rule, subPath, opts) ==
      Loading(WithTable(st.rules, s, TableOf(st.rules, s)[i := (key, TableOf(st.rules, s)[i].1 + [text])]),
              st.stats.(ignoreRulesCount := st.stats.ignoreRulesCount + 1))
  {
    FindAt(TableOf(st.rules, s), key, i);
  }

  lemma InsertOneLine(st: Loading, line: string, subPath: string, opts: Options)
    requires line != []
    ensures InsertLines(st, [line], subPath, opts) == Insert(st, line, subPath, opts)
  {
    assert [line][..0] == [];
  }

  const Pkg2Path := "/node_modules/pkg2"
  const Pkg2Key := Pkg2Path + "/module1.js"
  const Top2 := [("/dist/", ["/dist/"]), (Pkg2Key, ["/module1.js"])]
  const Every2 := [(".", [".*"]), ("", ["*~backup-*", "*~backup-*/"]), ("program.dev.json", ["program.dev.json"]), (".sm/", [".sm/"])]
  const R2 := RuleTables(Top2, Every2, [], Some(".gitignore"))

  /** An ignore file whose only line is a `top` rule without `*` adds one group at the end of `top`. */
  lemma TopLine(st: Loading, line: string, sp: string, opts: Options)
    requires line != [] && line[0] == '/' && '*' !in line && '\n' !in line && !IsDependencyRule(line)
    requires sp == [] || sp[0] == '/'
    requires forall i | 0 <= i < |st.rules.top| :: st.rules.top[i].0 != sp + line
    ensures InsertLines(st, Lines(line), sp, opts) ==
      Loading(st.rules.(top := st.rules.top + [(sp + line, [line])]), st.stats.(ignoreRulesCount := st.stats.ignoreRulesCount + 1))
  {
    LinesOfLine(line);
    InsertOneLine(st, line, sp, opts);
    PlaceTop(line, sp, opts.includeDependencies);
    assert (sp + line)[0] == '/';
    InsertNewKey(st, line, sp, opts, Top, sp + line, line);
  }

  lemma Pkg2LineShape()
    ensures var line := "/module1.js";
      && line != [] && line[0] == '/' && '*' !in line && '\n' !in line && !IsDependencyRule(line)
      && Pkg2Path[0] == '/'
      && (forall i | 0 <= i < |R0.top| :: R0.top[i].0 != Pkg2Path + line)
      && R0.top + [(Pkg2Path + line, [line])] == Top2
  {
    DiffersAt("/dist/", Pkg2Key, 1);
  }

  lemma Pkg2Line(s: Stats)
    ensures InsertLines(Loading(R0, s), Lines("/module1.js"), Pkg2Path, Opts) ==
      Loading(R0.(top := Top2), s.(ignoreRulesCount := s.ignoreRulesCount + 1))
  {
    Pkg2LineShape();
    TopLine(Loading(R0, s), "/module1.js", Pkg2Path, Opts);
  }

  lemma Pkg2Probes(x: Loading)
    ensures ProbeRules(x, C, Pkg2Path) == x
  {
    assert |ProbePath(C.rootPath, Pkg2Path, ".git")| != |"/tmp/walker-1/.git"|;
    assert |ProbePath(C.rootPath, Pkg2Path, ".svn")| != |"/tmp/walker-1/.git"|;
  }

  lemma Pkg2Tail(s: Stats)
    ensures TailRules(Loading(R0.(top := Top2), s), Pkg2Path, Opts) ==
      Loading(R2.(filename := Some("default")), s.(ignoreRulesCount := s.ignoreRulesCount + 2))
  {
    var x := Loading(R0.(top := Top2), s);
    PlaceEveryAt("*~backup-*/", Pkg2Path, true, 0);
    InsertOldKey(x, "*~backup-*/", Pkg2Path, Opts, Every, "", "*~backup-*/", 1);
    var y := Loading(x.rules.(every := R0.every[1 := ("", ["*~backup-*", "*~backup-*/"])]), s.(ignoreRulesCount := s.ignoreRulesCount + 1));
    assert ["*~backup-*"] + ["*~backup-*/"] == ["*~backup-*", "*~backup-*/"];
    assert Insert(x, "*~backup-*/", Pkg2Path, Opts) == y;
    InsertPlainNew(y, ".sm/", Pkg2Path, Opts);
  }


  /** Two candidates: the first absent, the second present and readable. */
  lemma LoadSecond(st: Loading, listing: Listing, c: Ctx, sp: string, n1: string, n2: string, content: string)
    requires Candidates(sp, c.opts) == [n1, n2]
    requires ProbeFile(Lookup(listing, n1)) == Absent && ProbeFile(Lookup(listing, n2)) == Text(content)
    ensures var loaded := LoadFile(st, content, c, sp);
      LoadRules(st, listing, c, sp) == Ok(loaded.(rules := loaded.rules.(filename := Some(n2))))
  {
    var loaded := LoadFile(st, content, c, sp);
    assert [n1, n2][1..] == [n2];
    assert TryCandidates(st, [n1, n2], listing, c, sp) == TryCandidates(st, [n2], listing, c, sp);
    assert TryCandidates(st, [n2], listing, c, sp) == Ok(loaded.(rules := loaded.rules.(filename := Some(n2))));
  }

  lemma Pkg2File(s: Stats)
    ensures LoadFile(Loading(R0, s), "/module1.js", C, Pkg2Path) ==
      Loading(R2.(filename := Some("default")), s.(ignoreRulesCount := s.ignoreRulesCount + 3))
  {
    Pkg2Line(s);
    var x := Loading(R0.(top := Top2), s.(ignoreRulesCount := s.ignoreRulesCount + 1));
    Pkg2Probes(x);
    Pkg2Tail(s.(ignoreRulesCount := s.ignoreRulesCount + 1));
  }

  lemma Pkg2Listing()
    ensures Candidates(Pkg2Path, Opts) == [".npmignore", ".gitignore"]
    ensures ProbeFile(Lookup(ListingOf(Pkg2), ".npmignore")) == Absent
    ensures ProbeFile(Lookup(ListingOf(Pkg2), ".gitignore")) == Text("/module1.js")
  {
  }

  lemma Pkg2Rules(s: Stats)
    ensures LoadRules(Loading(R0, s), ListingOf(Pkg2), C, Pkg2Path) == Ok(Loading(R2, s.(ignoreRulesCount := s.ignoreRulesCount + 3)))
  {
    Pkg2Listing();
    Pkg2File(s);
    LoadSecond(Loading(R0, s), ListingOf(Pkg2), C, Pkg2Path, ".npmignore", ".gitignore", "/module1.js");
  }

  /** With `"."` then `""` as the first keys, a name without a leading dot falls to the `""` group; backup rules there reject it. */
  lemma EveryKept(t: Table, name: string)
    requires |t| >= 2 && t[0].0 == "." && t[1].0 == ""
    requires name != [] && name[0] != '.' && '~' !in name
    requires forall j | 0 <= j < |t| :: t[j].0 != name
    requires forall r | r in t[1].1 :: '~' in r
    ensures !Selects(t, name)
  {
    DiffersAt(".", name, 0);
    SelectFirstPrefix(t, name, 1);
    forall r | r in t[1].1
      ensures !Glob.Accepts(r, name)
    {
      NoTilde(r, name);
    }
  }

  /** With `".": [".*"]` as the first group, every dotted name that is not a key is selected. */
  lemma EveryDot(t: Table, name: string)
    requires t != [] && t[0] == (".", [".*"])
    requires name != [] && name[0] == '.'
    requires forall j | 0 <= j < |t| :: t[j].0 != name
    ensures Selects(t, name)
  {
    assert "." <= name;
    SelectFirstPrefix(t, name, 0);
    DotStar(name);
    assert Glob.Accepts(t[0].1[0], name);
  }

  lemma Pkg2GitignoreIgnored()
    ensures Ignored(R2, Pkg2Path, ".gitignore", false)
  {
    DiffersAt("/dist/", EntryPath(Pkg2Path, ".gitignore", false), 1);
    DiffersAt(Pkg2Key, EntryPath(Pkg2Path, ".gitignore", false), 19);
    EveryDecides(R2, Pkg2Path, ".gitignore", false);
    assert EntryName(".gitignore", false) == ".gitignore";
    EveryDot(Every2, ".gitignore");
  }

  lemma Pkg2ModuleIgnored()
    ensures Ignored(R2, Pkg2Path, "module1.js", false)
  {
    var path := EntryPath(Pkg2Path, "module1.js", false);
    assert path == Pkg2Key;
    SelectNone(R2.includes, path);
    SelectExact(Top2, path, 1);
    Glob.LiteralAccepts("/module1.js", path);
    assert Glob.OccursAt("/module1.js", path, 18);
    assert Glob.Accepts(Top2[1].1[0], path);
  }

  lemma Pkg2PackageTop()
    ensures forall j | 0 <= j < |R2.top| :: !(R2.top[j].0 <= EntryPath(Pkg2Path, "package.json", false))
  {
    DiffersAt("/dist/", EntryPath(Pkg2Path, "package.json", false), 1);
    DiffersAt(Pkg2Key, EntryPath(Pkg2Path, "package.json", false), 19);
  }

  /** `package.json` is not a key of the second level's `every` table, whose `""` group holds only backup rules. */
  lemma Every2Keeps()
    ensures forall j | 0 <= j < |Every2| :: Every2[j].0 != "package.json"
    ensures forall r | r in Every2[1].1 :: '~' in r
  {
    assert "*~backup-*"[1] == '~' && "*~backup-*/"[1] == '~';
    forall j | 0 <= j < |Every2| ensures Every2[j].0 != "package.json" {
      assert |Every2[j].0| != |"package.json"| || Every2[j].0[0] != 'p';
    }
  }

  lemma Pkg2PackageKept()
    ensures !Ignored(R2, Pkg2Path, "package.json", false)
  {
    Pkg2PackageTop();
    EveryDecides(R2, Pkg2Path, "package.json", false);
    assert EntryName("package.json", false) == "package.json";
    Every2Keeps();
    EveryKept(Every2, "package.json");
  }

  lemma IgnoredFile(name: string, f: Node, rules: RuleTables, sp: string, acc: Walked)
    requires f.File? && Ignored(rules, sp, name, false)
    ensures Step(name, f, rules, C, sp, acc) == Ok(IgnoredOne(acc))
  {
  }

  /** A directory step that records `path` and merges what its walk found. */
  function DirOne(acc: Walked, path: string, mtime: int, sub: Walked): Walked {
    Walked(acc.list[path := DirEntry(mtime)] + sub.list, sub.stats, sub.traversed)
  }

  /** A kept directory is recorded, then walked with the current rules. */
  lemma KeptDir(name: string, child: Node, rules: RuleTables, sp: string, acc: Walked, sub: Walked)
    requires child.Dir? && !Ignored(rules, sp, name, true)
    requires WalkDir(child, rules, C, sp + "/" + name, acc.stats, acc.traversed) == Ok(sub)
    ensures Step(name, child, rules, C, sp, acc) == Ok(DirOne(acc, sp + "/" + name, child.mtime, sub))
  {
  }

  /** An ignored directory with no include rules is skipped outright. */
  lemma IgnoredDir(name: string, child: Node, rules: RuleTables, sp: string, acc: Walked)
    requires child.Dir? && Ignored(rules, sp, name, true) && rules.includes == []
    ensures Step(name, child, rules, C, sp, acc) == Ok(acc)
  {
  }

  /** A listed directory whose rules load walks as the fold over its entries. */
  lemma WalkDirLoaded(dir: Node, inherited: RuleTables, rules: RuleTables, sp: string, st: Stats, st2: Stats, tr: set<string>)
    requires dir.Dir? && dir.listing.Listed?
    requires LoadRules(Loading(inherited, st), dir.listing, C, sp) == Ok(Loading(rules, st2))
    ensures WalkDir(dir, inherited, C, sp, st, tr) == Fold(dir, rules, C, sp, Walked(map[], st2, tr), |dir.listing.entries|)
  {
  }

  lemma Fold3(dir: Node, rules: RuleTables, sp: string, n1: string, c1: Node, n2: string, c2: Node, n3: string, c3: Node,
               a0: Walked, a1: Walked, a2: Walked, a3: Walked)
    requires dir.Dir? && dir.listing == Listed([(n1, c1), (n2, c2), (n3, c3)])
    requires Step(n1, c1, rules, C, sp, a0) == Ok(a1)
    requires Step(n2, c2, rules, C, sp, a1) == Ok(a2)
    requires Step(n3, c3, rules, C, sp, a2) == Ok(a3)
    ensures Fold(dir, rules, C, sp, a0, 3) == Ok(a3)
  {
    assert Fold(dir, rules, C, sp, a0, 0) == Ok(a0);
    assert Fold(dir, rules, C, sp, a0, 1) == Ok(a1);
    assert Fold(dir, rules, C, sp, a0, 2) == Ok(a2);
  }

  /** Two ignored files, then a kept one at `path`. */
  function Three(acc: Walked, path: string): Walked {
    KeptOne(IgnoredOne(IgnoredOne(acc)), path)
  }

  /** The pkg2 shape: two ignored files, then a kept one. */
  lemma IgnoredIgnoredKept(dir: Node, rules: RuleTables, sp: string, n1: string, f1: Node, n2: string, n3: string,
                           st: Stats, tr: set<string>)
    requires dir.Dir? && dir.listing == Listed([(n1, f1), (n2, F), (n3, F)]) && f1.File?
    requires Ignored(rules, sp, n1, false) && Ignored(rules, sp, n2, false) && !Ignored(rules, sp, n3, false)
    ensures Fold(dir, rules, C, sp, Walked(map[], st, tr), 3) == Ok(Three(Walked(map[], st, tr), sp + "/" + n3))
  {
    var a0 := Walked(map[], st, tr);
    IgnoredFile(n1, f1, rules, sp, a0);
    IgnoredFile(n2, F, rules, sp, IgnoredOne(a0));
    KeptFile(n3, rules, sp, IgnoredOne(IgnoredOne(a0)));
    Fold3(dir, rules, sp, n1, f1, n2, F, n3, F, a0, IgnoredOne(a0), IgnoredOne(IgnoredOne(a0)), KeptOne(IgnoredOne(IgnoredOne(a0)), sp + "/" + n3));
  }

  /** What the walk of pkg2 adds: its three rules, two ignored files and one kept. */
  function P2(st: Stats, tr: set<string>): Walked {
    Three(Walked(map[], st.(ignoreRulesCount := st.ignoreRulesCount + 3), tr), Pkg2Path + "/" + "package.json")
  }

  lemma Pkg2Fold(st: Stats, tr: set<string>)
    ensures Fold(Pkg2, R2, C, Pkg2Path, Walked(map[], st.(ignoreRulesCount := st.ignoreRulesCount + 3), tr), 3) ==
      Ok(Three(Walked(map[], st.(ignoreRulesCount := st.ignoreRulesCount + 3), tr), Pkg2Path + "/" + "package.json"))
  {
    Pkg2GitignoreIgnored();
    Pkg2ModuleIgnored();
    Pkg2PackageKept();
    IgnoredIgnoredKept(Pkg2, R2, Pkg2Path, ".gitignore", File(1, 11, "/module1.js"), "module1.js", "package.json",
                       st.(ignoreRulesCount := st.ignoreRulesCount + 3), tr);
  }

  lemma Pkg2Walk(st: Stats, tr: set<string>)
    ensures WalkDir(Pkg2, R0, C, Pkg2Path, st, tr) == Ok(P2(st, tr))
  {
    Pkg2Rules(st);
    WalkDirLoaded(Pkg2, R0, R2, Pkg2Path, st, st.(ignoreRulesCount := st.ignoreRulesCount + 3), tr);
    Pkg2Fold(st, tr);
  }


  // ----- node_modules

  lemma NMKept(name: string)
    requires name != [] && name[0] != '.' && '~' !in name
    ensures !Ignored(R0, NMPath, name, true)
  {
    DiffersAt("/dist/", EntryPath(NMPath, name, true), 1);
    EveryDecides(R0, NMPath, name, true);
    var n := EntryName(name, true);
    assert n == name + "/" && n[0] == name[0] && n[|n| - 1] == '/';
    assert '~' !in n;
    forall j | 0 <= j < |R0.every| ensures R0.every[j].0 != n {
      if j == 2 {
        assert R0.every[2].0[15] == 'n';
      }
    }
    EveryKept(R0.every, n);
  }

  lemma BackupIgnored()
    ensures Ignored(R0, NMPath, "pkg1~backup-12345", true)
  {
    var name := EntryName("pkg1~backup-12345", true);
    assert name == "pkg1~backup-12345/";
    DiffersAt("/dist/", EntryPath(NMPath, "pkg1~backup-12345", true), 1);
    EveryDecides(R0, NMPath, "pkg1~backup-12345", true);
    DiffersAt(".", name, 0);
    SelectFirstPrefix(R0.every, name, 1);
    BackupMatches();
    assert Glob.Accepts(R0.every[1].1[0], name);
  }

  lemma NMRules(st: Stats)
    ensures LoadRules(Loading(R0, st), ListingOf(NodeModules), C, NMPath) == Ok(Loading(R0, st))
  {
    NoIgnoreFile(Loading(R0, st), NodeModules.listing, NMPath);
  }

  lemma NMJoin()
    ensures NMPath + "/" + "pkg1" == Pkg1Path && NMPath + "/" + "pkg2" == Pkg2Path
  {
  }

  /** What the walk of node_modules adds: pkg1 and pkg2 with their files; the backup copy is skipped. */
  function NM(st: Stats, tr: set<string>): Walked {
    var a1 := DirOne(Walked(map[], st, tr), Pkg1Path, 1, P1(st, tr));
    DirOne(a1, Pkg2Path, 1, P2(a1.stats, a1.traversed))
  }

  lemma NMWalk(st: Stats, tr: set<string>)
    ensures WalkDir(NodeModules, R0, C, NMPath, st, tr) == Ok(NM(st, tr))
  {
    NMRules(st);
    WalkDirLoaded(NodeModules, R0, R0, NMPath, st, st, tr);
    NMJoin();
    var a0 := Walked(map[], st, tr);
    NMKept("pkg1");
    Pkg1Walk(st, tr);
    KeptDir("pkg1", Pkg1, R0, NMPath, a0, P1(st, tr));
    var a1 := DirOne(a0, Pkg1Path, 1, P1(st, tr));
    BackupIgnored();
    IgnoredDir("pkg1~backup-12345", Backup, R0, NMPath, a1);
    NMKept("pkg2");
    Pkg2Walk(a1.stats, a1.traversed);
    KeptDir("pkg2", Pkg2, R0, NMPath, a1, P2(a1.stats, a1.traversed));
    Fold3(NodeModules, R0, NMPath, "pkg1", Pkg1, "pkg1~backup-12345", Backup, "pkg2", Pkg2, a0, a1, a1, NM(st, tr));
  }


  // ----- the root

  const S4 := Stats(4, 0, 0, 0)

  /** A root directory whose name does not begin with `d` is not under `/dist/`, and no every-group holds it. */
  lemma RootDirKept(name: string)
    requires name != [] && name[0] != '.' && name[0] != 'd' && '~' !in name
    ensures !Ignored(R0, "", name, true)
  {
    var sp := "";
    assert EntryPath(sp, name, true)[1] == name[0];
    DiffersAt("/dist/", EntryPath(sp, name, true), 1);
    EveryDecides(R0, sp, name, true);
    var n := EntryName(name, true);
    assert n == name + "/" && n[0] == name[0] && n[|n| - 1] == '/';
    assert '~' !in n;
    forall j | 0 <= j < |R0.every| ensures R0.every[j].0 != n {
      if j == 2 {
        assert R0.every[2].0[15] == 'n';
      }
    }
    EveryKept(R0.every, n);
  }

  lemma GitIgnored()
    ensures Ignored(R0, "", ".git", true)
  {
    DiffersAt("/dist/", EntryPath("", ".git", true), 1);
    EveryDecides(R0, "", ".git", true);
    var g := EntryName(".git", true);
    assert g == ".git/";
    forall j | 0 <= j < |R0.every| ensures R0.every[j].0 != g {
      if j == 2 {
        assert R0.every[2].0[0] != g[0];
      }
    }
    EveryDot(R0.every, g);
  }

  lemma NodeModulesKept()
    ensures !Ignored(R0, "", "node_modules", true)
  {
    RootDirKept("node_modules");
  }

  lemma RootPackageKept()
    ensures !Ignored(R0, "", "package.json", false)
  {
    R0FileKept("", "package.json");
  }


  lemma RootJoin()
    ensures "" + "/" + "node_modules" == NMPath && "" + "/" + "package.json" == "/package.json"
  {
  }

  /** The first load at the root finds no ignore file and installs the defaults. */
  lemma RootFirstLoad()
    ensures LoadRules(Loading(Rules.Empty, NoStats), ListingOf(Root), C, "") == Ok(Loading(R0, S4))
  {
    var cands := Candidates("", Opts);
    assert cands == [".npmignore", ".gitignore"];
    assert Lookup(Root.listing, ".npmignore").None?;
    assert Lookup(Root.listing, ".gitignore").None?;
    LoadRulesNamed(Loading(Rules.Empty, NoStats), Root.listing, C, "");
    RootDefaults();
  }

  lemma RootSecondLoad(st: Stats)
    ensures LoadRules(Loading(R0, st), ListingOf(Root), C, "") == Ok(Loading(R0, st))
  {
    NoIgnoreFile(Loading(R0, st), Root.listing, "");
  }

  /** The whole listing: node_modules as walked, then the root `package.json`; `.git` is skipped. */
  function RootList(st: Stats, tr: set<string>): Walked {
    KeptOne(DirOne(Walked(map[], st, tr), NMPath, 1, NM(st, tr)), "/package.json")
  }

  lemma RootWalk(st: Stats, tr: set<string>)
    ensures WalkDir(Root, R0, C, "", st, tr) == Ok(RootList(st, tr))
  {
    RootSecondLoad(st);
    WalkDirLoaded(Root, R0, R0, "", st, st, tr);
    var a0 := Walked(map[], st, tr);
    GitIgnored();
    IgnoredDir(".git", GitDir, R0, "", a0);
    RootJoin();
    NodeModulesKept();
    NMWalk(st, tr);
    KeptDir("node_modules", NodeModules, R0, "", a0, NM(st, tr));
    var a1 := DirOne(a0, NMPath, 1, NM(st, tr));
    RootPackageKept();
    KeptFile("package.json", R0, "", a1);
    Fold3(Root, R0, "", ".git", GitDir, "node_modules", NodeModules, "package.json", F, a0, a0, a1, RootList(st, tr));
  }

  lemma WalkFixture()
    ensures WalkSpec(Root, Rules.Empty, NoStats, C) == Ok((R0, RootList(S4, {})))
  {
    RootFirstLoad();
    RootWalk(S4, {});
  }

  // ----- what the fixture walk reports

  lemma P1Facts(st: Stats, tr: set<string>)
    ensures P1(st, tr).list.Keys == {Pkg1Path + "/" + "module1.js", Pkg1Path + "/" + "package.json"}
    ensures P1(st, tr).stats == st.(totalFiles := st.totalFiles + 2, totalSize := st.totalSize + 2)
    ensures P1(st, tr).traversed == tr
  {
  }

  lemma P2Facts(st: Stats, tr: set<string>)
    ensures P2(st, tr).list.Keys == {Pkg2Path + "/" + "package.json"}
    ensures P2(st, tr).stats == Stats(st.ignoreRulesCount + 3, st.totalFiles + 3, st.ignoredFiles + 2, st.totalSize + 1)
    ensures P2(st, tr).traversed == tr
  {
  }

  lemma NMFacts(st: Stats, tr: set<string>)
    ensures NM(st, tr).list.Keys == {Pkg1Path} + P1(st, tr).list.Keys + {Pkg2Path} + {Pkg2Path + "/" + "package.json"}
    ensures NM(st, tr).stats == Stats(st.ignoreRulesCount + 3, st.totalFiles + 5, st.ignoredFiles + 2, st.totalSize + 3)
    ensures NM(st, tr).traversed == tr
  {
    P1Facts(st, tr);
    var a1 := DirOne(Walked(map[], st, tr), Pkg1Path, 1, P1(st, tr));
    P2Facts(a1.stats, a1.traversed);
  }

  lemma RootFacts(st: Stats, tr: set<string>)
    ensures RootList(st, tr).list.Keys == {NMPath} + NM(st, tr).list.Keys + {"/package.json"}
    ensures RootList(st, tr).stats == Stats(st.ignoreRulesCount + 3, st.totalFiles + 6, st.ignoredFiles + 2, st.totalSize + 4)
    ensures RootList(st, tr).traversed == tr
  {
    NMFacts(st, tr);
  }

  lemma FixturePaths()
    ensures Pkg1Path + "/" + "module1.js" == "/node_modules/pkg1/module1.js"
    ensures Pkg1Path + "/" + "package.json" == "/node_modules/pkg1/package.json"
    ensures Pkg2Path + "/" + "package.json" == "/node_modules/pkg2/package.json"
  {
  }

  /**
   * The walk of the fixture tree lists the seven expected paths: `.git`, the
   * backup copy, pkg2's `module1.js` (the one rule of its `.gitignore`) and
   * that `.gitignore` itself (the root's default `.*` rule) are left out.
   * Seven rules were loaded (four defaults at the root and three in pkg2),
   * six files were seen, two of them ignored, and the size total is the sum
   * of the kept files' modification times.
   */
  lemma WalkFixtureListing()
    ensures WalkSpec(Root, Rules.Empty, NoStats, C).Ok?
    ensures var w := WalkSpec(Root, Rules.Empty, NoStats, C).value.1;
      && w.list.Keys == {"/node_modules", "/node_modules/pkg1", "/node_modules/pkg1/module1.js", "/node_modules/pkg1/package.json",
                         "/node_modules/pkg2", "/node_modules/pkg2/package.json", "/package.json"}
      && w.stats == Stats(7, 6, 2, 4)
  {
    WalkFixture();
    RootFacts(S4, {});
    NMFacts(S4, {});
    P1Facts(S4, {});
    FixturePaths();
  }
}
