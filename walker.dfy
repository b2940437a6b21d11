/**
 * The walker: per-directory loading of ignore files and the recursive walk
 * that builds the manifest and the statistics.
 *
 * The filesystem is a tree value. A directory lists its entries in the order
 * `readdir` returns them; a symbolic link carries how it resolves, and when it
 * resolves, the node found at its real path (so a link to a directory carries
 * that directory's listing as seen through the link). Whether `.git` and
 * `.svn` exist at the probed path is an oracle: the set of absolute paths that
 * `existsSync` reports as present.
 *
 * The source fans out asynchronously; the model processes the entries of a
 * directory one after the other, depth first, in listing order.
 */
module Walker {
  import opened Base
  import opened Props
  import opened Rules

  datatype Options = Options(includeDependencies: bool, respectDistignore: bool, respectNestedIgnore: bool)

  datatype Stats = Stats(ignoreRulesCount: nat, totalFiles: nat, ignoredFiles: nat, totalSize: int)

  const NoStats := Stats(0, 0, 0, 0)

  /** What `lstat` finds at a path. */
  datatype Node =
    | File(mtime: int, size: nat, content: string)
    | Dir(mtime: int, listing: Listing)
    | Link(mtime: int, target: string, resolution: Resolution)
    | Other(mtime: int)
    | Unstattable

  /** What `readdir` returns: the entries in listing order, or a failure. */
  datatype Listing = Listed(entries: seq<(string, Node)>) | Unlistable

  /** What `realpathSync` does with a link: ENOENT, another failure, or the canonical path and what is there. */
  datatype Resolution = Missing | Unresolvable | Resolved(realPath: string, node: Node)

  /** A manifest record, keyed by the path below the walk root (`"/a/b"`). */
  datatype Entry =
    | FileEntry(mtime: int, size: nat)
    | DirEntry(mtime: int)
    | LinkEntry(mtime: int, dir: bool, symlink: string, symlinkReal: string)

  type Manifest = map<string, Entry>

  datatype WalkError =
    | IgnoreFileUnreadable(path: string)
    | ListFailed(path: string)
    | StatFailed(path: string)
    | ResolveFailed(path: string)

  /** Everything the walk reads besides the tree: the root path, the options and the existence oracle. */
  datatype Ctx = Ctx(rootPath: string, opts: Options, probes: set<string>)

  function ListingOf(n: Node): Listing {
    if n.Dir? then n.listing else Unlistable
  }

  /** The first entry of the listing with that name. */
  function Lookup(l: Listing, name: string): (r: Option<Node>)
    ensures r.Some? ==> l.Listed? && exists i | 0 <= i < |l.entries| :: l.entries[i] == (name, r.value)
    ensures r.None? && l.Listed? ==> forall i | 0 <= i < |l.entries| :: l.entries[i].0 != name
  {
    if l.Listed? then LookupIn(l.entries, name) else None
  }

  function LookupIn(entries: seq<(string, Node)>, name: string): (r: Option<Node>)
    ensures r.Some? ==> exists i | 0 <= i < |entries| :: entries[i] == (name, r.value)
    ensures r.None? ==> forall i | 0 <= i < |entries| :: entries[i].0 != name
  {
    if entries == [] then None
    else if entries[0].0 == name then Some(entries[0].1)
    else
      var r := LookupIn(entries[1..], name);
      assert r.Some? ==> exists i | 0 <= i < |entries| :: entries[i] == (name, r.value) by {
        if r.Some? {
          var i :| 0 <= i < |entries[1..]| && entries[1..][i] == (name, r.value);
          assert entries[i + 1] == (name, r.value);
        }
      }
      r
  }

  /** What `existsSync` and `readFileSync` make of a candidate ignore file. */
  datatype Probe = Absent | Text(content: string) | Unreadable

  function ProbeFile(n: Option<Node>): Probe {
    match n
    case None => Absent
    case Some(File(_, _, content)) => Text(content)
    case Some(Link(_, _, Resolved(_, File(_, _, content)))) => Text(content)
    case Some(Link(_, _, Resolved(_, Unstattable))) => Absent
    case Some(Link(_, _, Resolved(_, _))) => Unreadable
    case Some(Link(_, _, _)) => Absent
    case Some(Unstattable) => Absent
    case Some(_) => Unreadable
  }

  /** `String.prototype.split("\n")`: at least one piece, none holding a newline. */
  function Lines(s: string): (r: seq<string>)
    ensures |r| >= 1
    ensures forall i | 0 <= i < |r| :: '\n' !in r[i]
  {
    if s == [] then [[]]
    else
      var rest := Lines(s[1..]);
      if s[0] == '\n' then [[]] + rest
      else [[s[0]] + rest[0]] + rest[1..]
  }

  /** `lines.join("\n")`. */
  function Unlines(ls: seq<string>): string
    requires |ls| >= 1
  {
    if |ls| == 1 then ls[0] else ls[0] + "\n" + Unlines(ls[1..])
  }

  lemma {:induction false} UnlinesLines(s: string)
    ensures Unlines(Lines(s)) == s
  {
    if s != [] {
      var rest := Lines(s[1..]);
      UnlinesLines(s[1..]);
      if s[0] == '\n' {
        assert [[]] + rest == [[]] + rest;
        assert ([[]] + rest)[1..] == rest;
      } else {
        var r := [[s[0]] + rest[0]] + rest[1..];
        if |rest| == 1 {
          assert s == [s[0]] + s[1..];
        } else {
          assert r[1..] == rest[1..];
          assert Unlines(rest) == rest[0] + "\n" + Unlines(rest[1..]);
          assert s == [s[0]] + s[1..];
        }
      }
    }
  }

  lemma {:induction false} LinesUnlines(ls: seq<string>)
    requires |ls| >= 1
    requires forall i | 0 <= i < |ls| :: '\n' !in ls[i]
    ensures Lines(Unlines(ls)) == ls
    decreases |ls|, |ls[0]|
  {
    if |ls| == 1 {
      LinesOfLine(ls[0]);
    } else {
      var s := Unlines(ls);
      if ls[0] == [] {
        assert s == "\n" + Unlines(ls[1..]);
        assert s[1..] == Unlines(ls[1..]);
        LinesUnlines(ls[1..]);
        assert ls == [[]] + ls[1..];
      } else {
        var ls' := [ls[0][1..]] + ls[1..];
        assert ls'[1..] == ls[1..];
        assert forall i | 0 <= i < |ls'| :: '\n' !in ls'[i] by {
          assert forall i | 1 <= i < |ls'| :: ls'[i] == ls[i];
          assert forall c | c in ls[0][1..] :: c in ls[0];
        }
        LinesUnlines(ls');
        assert s[1..] == Unlines(ls');
        assert s[0] == ls[0][0] && ls[0][0] != '\n';
        assert ls[0] == [ls[0][0]] + ls[0][1..];
      }
    }
  }

  lemma {:induction false} LinesOfLine(s: string)
    requires '\n' !in s
    ensures Lines(s) == [s]
  {
    if s != [] {
      assert '\n' !in s[1..] by {
        assert forall c | c in s[1..] :: c in s;
      }
      LinesOfLine(s[1..]);
      assert s == [s[0]] + s[1..];
    }
  }

  /** The rule tables together with the statistics that `_insertIgnoreRule` updates. */
  datatype Loading = Loading(rules: RuleTables, stats: Stats)

  /** `_insertIgnoreRule` on the tables and `ignoreRulesCount`. */
  function Insert(st: Loading, rule: string, subPath: string, opts: Options): Loading {
    Loading(InsertRule(st.rules, rule, subPath, opts.includeDependencies),
            st.stats.(ignoreRulesCount := st.stats.ignoreRulesCount + Added(rule, opts.includeDependencies)))
  }

  /** The `forEach` over the lines of an ignore file; empty lines are skipped. */
  function InsertLines(st: Loading, lines: seq<string>, subPath: string, opts: Options): Loading
    decreases |lines|
  {
    if lines == [] then st
    else
      var before := InsertLines(st, lines[..|lines| - 1], subPath, opts);
      var line := lines[|lines| - 1];
      if line == [] then before else Insert(before, line, subPath, opts)
  }

  /** The lines that become rules: the non-empty ones. */
  function NonEmpty(lines: seq<string>): (r: seq<string>)
    ensures forall i | 0 <= i < |r| :: r[i] != []
    ensures |r| <= |lines|
  {
    if lines == [] then []
    else
      var before := NonEmpty(lines[..|lines| - 1]);
      if lines[|lines| - 1] == [] then before else before + [lines[|lines| - 1]]
  }

  /** Empty lines change nothing: the file acts exactly as its non-empty lines inserted in order. */
  lemma {:induction false} InsertLinesNonEmpty(st: Loading, lines: seq<string>, subPath: string, opts: Options)
    ensures InsertLines(st, lines, subPath, opts) == InsertLines(st, NonEmpty(lines), subPath, opts)
    decreases |lines|
  {
    if lines != [] {
      var init := lines[..|lines| - 1];
      InsertLinesNonEmpty(st, init, subPath, opts);
      var ne := NonEmpty(init);
      if lines[|lines| - 1] != [] {
        var ne' := ne + [lines[|lines| - 1]];
        assert ne'[..|ne'| - 1] == ne;
      }
    }
  }

  /** Each non-empty line adds one to `ignoreRulesCount`, unless it is a dropped dependency rule. */
  lemma {:induction false} InsertLinesCount(st: Loading, lines: seq<string>, subPath: string, opts: Options)
    requires !opts.includeDependencies
    ensures InsertLines(st, lines, subPath, opts).stats ==
      st.stats.(ignoreRulesCount := st.stats.ignoreRulesCount + |NonEmpty(lines)|)
    decreases |lines|
  {
    if lines != [] {
      InsertLinesCount(st, lines[..|lines| - 1], subPath, opts);
    }
  }

  /** The path the `.git`/`.svn` probe asks about: the directory joined with `subPath` a second time. */
  function ProbePath(rootPath: string, subPath: string, name: string): string {
    rootPath + subPath + subPath + "/" + name
  }

  /** `_loadIgnoreRulesFile` once the file has been read. */
  function LoadFile(st: Loading, content: string, c: Ctx, subPath: string): Loading {
    TailRules(ProbeRules(InsertLines(st, Lines(content), subPath, c.opts), c, subPath), subPath, c.opts)
  }

  /** The `.git/` and `.svn/` rules, each added when its probe succeeds. */
  function ProbeRules(st: Loading, c: Ctx, subPath: string): Loading {
    var s2 := if ProbePath(c.rootPath, subPath, ".git") in c.probes then Insert(st, ".git/", subPath, c.opts) else st;
    if ProbePath(c.rootPath, subPath, ".svn") in c.probes then Insert(s2, ".svn/", subPath, c.opts) else s2
  }

  /** The two rules every loaded file adds last. */
  function TailRules(st: Loading, subPath: string, opts: Options): Loading {
    Insert(Insert(st, "*~backup-*/", subPath, opts), ".sm/", subPath, opts)
  }

  /** The ignore files `_loadIgnoreRules` considers, in priority order. */
  function Candidates(subPath: string, opts: Options): seq<string> {
    (if opts.respectDistignore then [".distignore"] else [])
    + (if subPath == [] || opts.respectNestedIgnore then [".npmignore", ".gitignore"] else [])
  }

  /** The candidates loop: the first candidate that exists is loaded and names the rule set; the rest are not looked at. */
  function TryCandidates(st: Loading, cands: seq<string>, listing: Listing, c: Ctx, subPath: string): Result<Loading, WalkError>
    decreases |cands|
  {
    if cands == [] then Ok(st)
    else match ProbeFile(Lookup(listing, cands[0]))
      case Absent => TryCandidates(st, cands[1..], listing, c, subPath)
      case Unreadable => Err(IgnoreFileUnreadable(c.rootPath + subPath + "/" + cands[0]))
      case Text(content) =>
        var loaded := LoadFile(st, content, c, subPath);
        Ok(loaded.(rules := loaded.rules.(filename := Some(cands[0]))))
  }

  /** The four rules installed when no ignore file has been seen. */
  function Defaults(st: Loading, subPath: string, opts: Options): Loading {
    var named := st.(rules := st.rules.(filename := Some("default")));
    Insert(Insert(Insert(Insert(named, ".*", subPath, opts), "*~backup-*", subPath, opts), "/dist/", subPath, opts),
           "program.dev.json", subPath, opts)
  }

  /** `_loadIgnoreRules(rules, subPath, options)` for the directory whose listing is given. */
  function LoadRules(st: Loading, listing: Listing, c: Ctx, subPath: string): Result<Loading, WalkError> {
    var found :- TryCandidates(st, Candidates(subPath, c.opts), listing, c, subPath);
    if found.rules.filename.None? then Ok(Defaults(found, subPath, c.opts)) else Ok(found)
  }

  /** The first candidate whose probe is not `Absent`, if any. */
  function FirstPresent(cands: seq<string>, listing: Listing): (r: Option<nat>)
    ensures r.Some? ==> r.value < |cands| && ProbeFile(Lookup(listing, cands[r.value])) != Absent
    ensures r.Some? ==> forall j | 0 <= j < r.value :: ProbeFile(Lookup(listing, cands[j])) == Absent
    ensures r.None? ==> forall j | 0 <= j < |cands| :: ProbeFile(Lookup(listing, cands[j])) == Absent
  {
    if cands == [] then None
    else if ProbeFile(Lookup(listing, cands[0])) != Absent then Some(0)
    else match FirstPresent(cands[1..], listing)
      case None => None
      case Some(i) => Some(i + 1)
  }

  /**
   * Exactly one ignore file is honoured: the first candidate present is loaded
   * (or is the error, if it cannot be read) and names the rule set; with none
   * present nothing changes.
   */
  lemma {:induction false} TryCandidatesFirst(st: Loading, cands: seq<string>, listing: Listing, c: Ctx, subPath: string)
    ensures match FirstPresent(cands, listing)
      case None => TryCandidates(st, cands, listing, c, subPath) == Ok(st)
      case Some(i) =>
        match ProbeFile(Lookup(listing, cands[i]))
        case Text(content) =>
          var loaded := LoadFile(st, content, c, subPath);
          TryCandidates(st, cands, listing, c, subPath) == Ok(loaded.(rules := loaded.rules.(filename := Some(cands[i]))))
        case _ => TryCandidates(st, cands, listing, c, subPath).Err?
    decreases |cands|
  {
    if cands != [] && ProbeFile(Lookup(listing, cands[0])) == Absent {
      TryCandidatesFirst(st, cands[1..], listing, c, subPath);
    }
  }

  /**
   * After loading, the rule set always has a file name; the default rules are
   * installed exactly when no candidate exists and no file name was inherited.
   */
  lemma LoadRulesNamed(st: Loading, listing: Listing, c: Ctx, subPath: string)
    ensures var r := LoadRules(st, listing, c, subPath);
      && (r.Ok? ==> r.value.rules.filename.Some?)
      && (FirstPresent(Candidates(subPath, c.opts), listing).None? && st.rules.filename.None? ==>
            r == Ok(Defaults(st, subPath, c.opts)) && r.value.rules.filename == Some("default"))
      && (FirstPresent(Candidates(subPath, c.opts), listing).None? && st.rules.filename.Some? ==> r == Ok(st))
  {
    TryCandidatesFirst(st, Candidates(subPath, c.opts), listing, c, subPath);
  }

  /** The state of a walk between two entries: the directory's list so far, the statistics and the set `traversedSymlink`. */
  datatype Walked = Walked(list: Manifest, stats: Stats, traversed: set<string>)

  /** `walkTree(inherited, subPath)`: clone, load the directory's ignore file, list, then every entry in order. */
  function WalkDir(node: Node, inherited: RuleTables, c: Ctx, subPath: string, stats: Stats, traversed: set<string>): Result<Walked, WalkError>
    decreases node, 2
  {
    var loaded :- LoadRules(Loading(inherited, stats), ListingOf(node), c, subPath);
    if !(node.Dir? && node.listing.Listed?) then Err(ListFailed(c.rootPath + subPath))
    else Fold(node, loaded.rules, c, subPath, Walked(map[], loaded.stats, traversed), |node.listing.entries|)
  }

  /** The first `n` entries of a directory processed in order from `start`. */
  function Fold(dir: Node, rules: RuleTables, c: Ctx, subPath: string, start: Walked, n: nat): Result<Walked, WalkError>
    requires dir.Dir? && dir.listing.Listed? && n <= |dir.listing.entries|
    decreases dir, 1, n
  {
    if n == 0 then Ok(start)
    else
      var acc :- Fold(dir, rules, c, subPath, start, n - 1);
      Step(dir.listing.entries[n - 1].0, dir.listing.entries[n - 1].1, rules, c, subPath, acc)
  }

  /** The handling of the entry `basename` of the directory at `subPath` (the `lstat` callback). */
  function Step(basename: string, child: Node, rules: RuleTables, c: Ctx, subPath: string, acc: Walked): Result<Walked, WalkError>
    decreases child, 3
  {
    var path := subPath + "/" + basename;
    match child
    case Unstattable => Err(StatFailed(c.rootPath + path))
    case Other(_) => Ok(acc)
    case File(mtime, size, _) =>
      var counted := acc.stats.(totalFiles := acc.stats.totalFiles + 1);
      if !Ignored(rules, subPath, basename, false) then
        Ok(Walked(acc.list[path := FileEntry(mtime, size)], counted.(totalSize := counted.totalSize + mtime), acc.traversed))
      else
        Ok(acc.(stats := counted.(ignoredFiles := counted.ignoredFiles + 1)))
    case Dir(mtime, _) =>
      var shown := !Ignored(rules, subPath, basename, true);
      var acc1 := if shown then acc.(list := acc.list[path := DirEntry(mtime)]) else acc;
      if shown || IncludeUnder(rules, path) then
        var sub :- WalkDir(child, rules, c, path, acc1.stats, acc1.traversed);
        Ok(Walked(acc1.list + sub.list, sub.stats, sub.traversed))
      else
        Ok(acc1)
    case Link(mtime, target, resolution) =>
      match resolution
      case Missing => Ok(acc)
      case Unresolvable => Err(ResolveFailed(c.rootPath + path))
      case Resolved(realPath, found) =>
        if found.Unstattable? then Err(StatFailed(realPath))
        else
          var isDir := found.Dir?;
          var counted := acc.stats.(totalFiles := acc.stats.totalFiles + 1);
          if Ignored(rules, subPath, basename, isDir) then
            Ok(acc.(stats := counted.(ignoredFiles := counted.ignoredFiles + 1)))
          else
            var acc1 := Walked(acc.list[path := LinkEntry(mtime, isDir, target, realPath)], counted, acc.traversed);
            if !isDir || realPath in acc.traversed then Ok(acc1)
            else
              var sub :- WalkDir(found, rules, c, path, counted, acc.traversed + {realPath});
              Ok(Walked(acc1.list + sub.list, sub.stats, sub.traversed))
  }

  /** `walk(options)`: the root rules are loaded into the walker's own rule set, then the walk clones them and loads the root again. */
  function WalkSpec(root: Node, rules: RuleTables, stats: Stats, c: Ctx): Result<(RuleTables, Walked), WalkError> {
    var loaded :- LoadRules(Loading(rules, stats), ListingOf(root), c, "");
    var walked :- WalkDir(root, loaded.rules, c, "", loaded.stats, {});
    Ok((loaded.rules, walked))
  }

  /** Once an entry fails, the directory fails with that error. */
  lemma {:induction false} FoldErr(dir: Node, rules: RuleTables, c: Ctx, subPath: string, start: Walked, m: nat, n: nat)
    requires dir.Dir? && dir.listing.Listed? && m <= n <= |dir.listing.entries|
    requires Fold(dir, rules, c, subPath, start, m).Err?
    ensures Fold(dir, rules, c, subPath, start, n) == Fold(dir, rules, c, subPath, start, m)
    decreases n - m
  {
    if m < n {
      FoldErr(dir, rules, c, subPath, start, m, n - 1);
    }
  }

  /** `b` differs from `a` only in a larger `ignoreRulesCount`: what loading rules may change. */
  predicate OnlyRulesCounted(a: Stats, b: Stats) {
    b == a.(ignoreRulesCount := b.ignoreRulesCount) && a.ignoreRulesCount <= b.ignoreRulesCount
  }

  lemma {:induction false} InsertLinesStats(st: Loading, lines: seq<string>, subPath: string, opts: Options)
    ensures OnlyRulesCounted(st.stats, InsertLines(st, lines, subPath, opts).stats)
    decreases |lines|
  {
    if lines != [] {
      InsertLinesStats(st, lines[..|lines| - 1], subPath, opts);
    }
  }

  lemma {:induction false} TryCandidatesStats(st: Loading, cands: seq<string>, listing: Listing, c: Ctx, subPath: string)
    ensures var r := TryCandidates(st, cands, listing, c, subPath);
      r.Ok? ==> OnlyRulesCounted(st.stats, r.value.stats)
    decreases |cands|
  {
    if cands != [] {
      match ProbeFile(Lookup(listing, cands[0]))
      case Absent => TryCandidatesStats(st, cands[1..], listing, c, subPath);
      case Unreadable =>
      case Text(content) => InsertLinesStats(st, Lines(content), subPath, c.opts);
    }
  }

  /** Loading a directory's rules touches no counter but `ignoreRulesCount`, which only grows. */
  lemma LoadRulesStats(st: Loading, listing: Listing, c: Ctx, subPath: string)
    ensures var r := LoadRules(st, listing, c, subPath);
      r.Ok? ==> OnlyRulesCounted(st.stats, r.value.stats)
  {
    TryCandidatesStats(st, Candidates(subPath, c.opts), listing, c, subPath);
  }

  /** A plain rule (no `!`, no leading `/`, no `*`, not the dependency directory) is an `every` rule keyed by itself. */
  lemma PlacePlain(rule: string, subPath: string, idep: bool)
    requires '*' !in rule && !StartsWith(rule, '!') && !StartsWith(rule, '/') && !IsDependencyRule(rule)
    ensures Place(rule, subPath, idep) == Filed(Every, rule, rule)
  {
    assert KeyText(rule) == rule;
  }

  /** Inserting a rule filed elsewhere leaves the `every` group under `k` alone; one filed there is appended to it. */
  lemma InsertEvery(st: Loading, rule: string, subPath: string, opts: Options, k: string)
    ensures var p := Place(rule, subPath, opts.includeDependencies);
      var g := Get(Insert(st, rule, subPath, opts).rules.every, k);
      if p.Filed? && p.scope == Every && p.key == k then g == Some(Get(st.rules.every, k).GetOr([]) + [p.text])
      else g == Get(st.rules.every, k)
  {
    InsertEffect(st.rules, rule, subPath, opts.includeDependencies, Every, k);
  }

  /** The backup-directory rule is an `every` rule under the key `""`. */
  lemma PlaceBackupDir(subPath: string, idep: bool)
    ensures Place("*~backup-*/", subPath, idep) == Filed(Every, "", "*~backup-*/")
  {
  }

  /** The group exists and its last matcher is `text`. */
  predicate EndsGroup(g: Option<seq<string>>, text: string) {
    g.Some? && g.value != [] && g.value[|g.value| - 1] == text
  }

  /** The last two implicit rules of a loaded file end their groups, and leave the `.git/` group alone. */
  lemma TailRulesEnd(s3: Loading, subPath: string, opts: Options)
    ensures var r := TailRules(s3, subPath, opts).rules;
      && EndsGroup(Get(r.every, ""), "*~backup-*/")
      && EndsGroup(Get(r.every, ".sm/"), ".sm/")
      && Get(r.every, ".git/") == Get(s3.rules.every, ".git/")
  {
    var s4 := Insert(s3, "*~backup-*/", subPath, opts);
    PlaceBackupDir(subPath, opts.includeDependencies);
    InsertEvery(s3, "*~backup-*/", subPath, opts, "");
    InsertEvery(s3, "*~backup-*/", subPath, opts, ".git/");
    InsertPlain(s4, ".sm/", subPath, opts, "");
    InsertPlain(s4, ".sm/", subPath, opts, ".git/");
  }

  /** A plain rule ends the `every` group under its own text and leaves every other key alone. */
  lemma InsertPlain(st: Loading, rule: string, subPath: string, opts: Options, k: string)
    requires '*' !in rule && !StartsWith(rule, '!') && !StartsWith(rule, '/') && !IsDependencyRule(rule)
    ensures EndsGroup(Get(Insert(st, rule, subPath, opts).rules.every, rule), rule)
    ensures k != rule ==> Get(Insert(st, rule, subPath, opts).rules.every, k) == Get(st.rules.every, k)
  {
    PlacePlain(rule, subPath, opts.includeDependencies);
    InsertEvery(st, rule, subPath, opts, rule);
    InsertEvery(st, rule, subPath, opts, k);
  }

  /** With the `.git` probe succeeding, the probe rules end the `.git/` group with `.git/`. */
  lemma ProbeRulesGit(st: Loading, c: Ctx, subPath: string)
    requires ProbePath(c.rootPath, subPath, ".git") in c.probes
    ensures EndsGroup(Get(ProbeRules(st, c, subPath).rules.every, ".git/"), ".git/")
  {
    InsertPlain(st, ".git/", subPath, c.opts, ".git/");
    InsertPlain(Insert(st, ".git/", subPath, c.opts), ".svn/", subPath, c.opts, ".git/");
  }

  /**
   * A loaded file always ends the `""` group of `every` with the backup-directory
   * rule and the `.sm/` group with `.sm/`; when the probe finds `.git` at the
   * probed path, `.git/` ends its own group.
   */
  lemma LoadFileImplicit(st: Loading, content: string, c: Ctx, subPath: string)
    ensures var r := LoadFile(st, content, c, subPath).rules;
      && EndsGroup(Get(r.every, ""), "*~backup-*/")
      && EndsGroup(Get(r.every, ".sm/"), ".sm/")
      && (ProbePath(c.rootPath, subPath, ".git") in c.probes ==> EndsGroup(Get(r.every, ".git/"), ".git/"))
  {
    var s3 := ProbeRules(InsertLines(st, Lines(content), subPath, c.opts), c, subPath);
    TailRulesEnd(s3, subPath, c.opts);
    if ProbePath(c.rootPath, subPath, ".git") in c.probes {
      ProbeRulesGit(InsertLines(st, Lines(content), subPath, c.opts), c, subPath);
    }
  }

  /**
   * What a successful step or walk from `a` to `b` in the directory at
   * `subPath` keeps: entries are only added, every new key lies under
   * `subPath + "/"`, the traversed set only grows, the counters only grow and
   * every ignored file was counted as a file.
   */
  predicate Grows(a: Walked, b: Walked, subPath: string) {
    && a.list.Keys <= b.list.Keys
    && (forall k | k in b.list && k !in a.list :: subPath + "/" <= k)
    && a.traversed <= b.traversed
    && a.stats.totalFiles <= b.stats.totalFiles
    && a.stats.ignoredFiles <= b.stats.ignoredFiles
    && b.stats.ignoredFiles - a.stats.ignoredFiles <= b.stats.totalFiles - a.stats.totalFiles
    && a.stats.ignoreRulesCount <= b.stats.ignoreRulesCount
  }

  lemma GrowsTrans(a: Walked, b: Walked, d: Walked, subPath: string)
    requires Grows(a, b, subPath) && Grows(b, d, subPath)
    ensures Grows(a, d, subPath)
  {
  }

  /** A sub-walk's keys, under `path + "/"`, are also under `subPath + "/"`. */
  lemma GrowsNested(a: Walked, b: Walked, subPath: string, basename: string)
    requires Grows(a, b, subPath + "/" + basename)
    ensures Grows(a, b, subPath)
  {
    var path := subPath + "/" + basename;
    forall k | k in b.list && k !in a.list
      ensures subPath + "/" <= k
    {
      assert path + "/" <= k;
      assert (subPath + "/") <= path + "/";
    }
  }

  lemma {:induction false} WalkDirGrows(node: Node, inherited: RuleTables, c: Ctx, subPath: string, stats: Stats, traversed: set<string>)
    ensures var r := WalkDir(node, inherited, c, subPath, stats, traversed);
      r.Ok? ==> Grows(Walked(map[], stats, traversed), r.value, subPath)
    decreases node, 2
  {
    LoadRulesStats(Loading(inherited, stats), ListingOf(node), c, subPath);
    var loaded := LoadRules(Loading(inherited, stats), ListingOf(node), c, subPath);
    if loaded.Ok? && node.Dir? && node.listing.Listed? {
      var start := Walked(map[], loaded.value.stats, traversed);
      FoldGrows(node, loaded.value.rules, c, subPath, start, |node.listing.entries|);
    }
  }

  lemma {:induction false} FoldGrows(dir: Node, rules: RuleTables, c: Ctx, subPath: string, start: Walked, n: nat)
    requires dir.Dir? && dir.listing.Listed? && n <= |dir.listing.entries|
    ensures var r := Fold(dir, rules, c, subPath, start, n);
      r.Ok? ==> Grows(start, r.value, subPath)
    decreases dir, 1, n
  {
    if n > 0 {
      FoldGrows(dir, rules, c, subPath, start, n - 1);
      var acc := Fold(dir, rules, c, subPath, start, n - 1);
      if acc.Ok? {
        var e := dir.listing.entries[n - 1];
        StepGrows(e.0, e.1, rules, c, subPath, acc.value);
        var r := Step(e.0, e.1, rules, c, subPath, acc.value);
        if r.Ok? {
          GrowsTrans(start, acc.value, r.value, subPath);
        }
      }
    }
  }

  lemma {:induction false} StepGrows(basename: string, child: Node, rules: RuleTables, c: Ctx, subPath: string, acc: Walked)
    ensures var r := Step(basename, child, rules, c, subPath, acc);
      r.Ok? ==> Grows(acc, r.value, subPath)
    decreases child, 3
  {
    var path := subPath + "/" + basename;
    assert subPath + "/" <= path;
    match child
    case Dir(mtime, _) =>
      var shown := !Ignored(rules, subPath, basename, true);
      var acc1 := if shown then acc.(list := acc.list[path := DirEntry(mtime)]) else acc;
      if shown || IncludeUnder(rules, path) {
        WalkDirGrows(child, rules, c, path, acc1.stats, acc1.traversed);
        var sub := WalkDir(child, rules, c, path, acc1.stats, acc1.traversed);
        if sub.Ok? {
          GrowsNested(Walked(map[], acc1.stats, acc1.traversed), sub.value, subPath, basename);
        }
      }
    case Link(mtime, target, Resolved(realPath, found)) =>
      if !found.Unstattable? && !Ignored(rules, subPath, basename, found.Dir?) && found.Dir? && realPath !in acc.traversed {
        var counted := acc.stats.(totalFiles := acc.stats.totalFiles + 1);
        WalkDirGrows(found, rules, c, path, counted, acc.traversed + {realPath});
        var sub := WalkDir(found, rules, c, path, counted, acc.traversed + {realPath});
        if sub.Ok? {
          GrowsNested(Walked(map[], counted, acc.traversed + {realPath}), sub.value, subPath, basename);
        }
      }
    case _ =>
  }

  /** An ignored directory gets no entry of its own, even when an include rule below it makes the walk enter it. */
  lemma IgnoredDirNoEntry(basename: string, child: Node, rules: RuleTables, c: Ctx, subPath: string, acc: Walked)
    requires child.Dir? && Ignored(rules, subPath, basename, true)
    requires subPath + "/" + basename !in acc.list
    ensures var r := Step(basename, child, rules, c, subPath, acc);
      r.Ok? ==> subPath + "/" + basename !in r.value.list
    ensures !IncludeUnder(rules, subPath + "/" + basename) ==> Step(basename, child, rules, c, subPath, acc) == Ok(acc)
  {
    var path := subPath + "/" + basename;
    if IncludeUnder(rules, path) {
      WalkDirGrows(child, rules, c, path, acc.stats, acc.traversed);
      var sub := WalkDir(child, rules, c, path, acc.stats, acc.traversed);
      if sub.Ok? {
        forall k | k in sub.value.list
          ensures |k| > |path|
        {
          assert path + "/" <= k;
        }
      }
    }
  }

  /**
   * A directory reached through a link is entered only when its real path is
   * not yet in `traversedSymlink`; once entered, the real path stays there, so
   * a second link to it only records the link.
   */
  lemma LinkEnteredOnce(basename: string, mtime: int, target: string, realPath: string, found: Node,
                        rules: RuleTables, c: Ctx, subPath: string, acc: Walked)
    requires found.Dir? && !Ignored(rules, subPath, basename, true)
    ensures var r := Step(basename, Link(mtime, target, Resolved(realPath, found)), rules, c, subPath, acc);
      var recorded := acc.list[subPath + "/" + basename := LinkEntry(mtime, true, target, realPath)];
      && (realPath in acc.traversed ==>
            r == Ok(Walked(recorded, acc.stats.(totalFiles := acc.stats.totalFiles + 1), acc.traversed)))
      && (r.Ok? ==> realPath in r.value.traversed && recorded.Keys <= r.value.list.Keys)
  {
    var path := subPath + "/" + basename;
    var counted := acc.stats.(totalFiles := acc.stats.totalFiles + 1);
    if realPath !in acc.traversed {
      WalkDirGrows(found, rules, c, path, counted, acc.traversed + {realPath});
    }
  }

  /** A link whose target does not exist is skipped: no entry, no counter. */
  lemma BrokenLinkSkipped(basename: string, mtime: int, target: string, rules: RuleTables, c: Ctx, subPath: string, acc: Walked)
    ensures Step(basename, Link(mtime, target, Missing), rules, c, subPath, acc) == Ok(acc)
  {
  }

  /**
   * Each regular file counts once and is then either recorded, adding its
   * mtime to `totalSize`, or counted as ignored.
   */
  lemma FileAccounted(basename: string, mtime: int, size: nat, content: string, rules: RuleTables, c: Ctx, subPath: string, acc: Walked)
    ensures var r := Step(basename, File(mtime, size, content), rules, c, subPath, acc);
      && r.Ok?
      && r.value.stats.totalFiles == acc.stats.totalFiles + 1
      && r.value.traversed == acc.traversed
      && (Ignored(rules, subPath, basename, false) ==>
            r.value.list == acc.list && r.value.stats.ignoredFiles == acc.stats.ignoredFiles + 1
            && r.value.stats.totalSize == acc.stats.totalSize)
      && (!Ignored(rules, subPath, basename, false) ==>
            r.value.list == acc.list[subPath + "/" + basename := FileEntry(mtime, size)]
            && r.value.stats.ignoredFiles == acc.stats.ignoredFiles
            && r.value.stats.totalSize == acc.stats.totalSize + mtime)
  {
  }

  /** One rule set: three tables and the name of the file that produced it. */
  class RuleSet {
    var top: Table
    var every: Table
    var includes: Table
    var filename: Option<string>

    function Value(): RuleTables
      reads this
    {
      RuleTables(top, every, includes, filename)
    }

    /** The empty set the `Walker` constructor creates. */
    constructor ()
      ensures Value() == Rules.Empty
    {
      top, every, includes, filename := [], [], [], None;
    }

    /** `LODASH.cloneDeep(parent)`: an independent copy. */
    constructor Clone(parent: RuleSet)
      ensures Value() == parent.Value()
    {
      top, every, includes, filename := parent.top, parent.every, parent.includes, parent.filename;
    }
  }

  /** `select(ruleGroups, path)`: pick one group, then try its matchers in order. */
  method Select(t: Table, path: string) returns (matched: bool)
    ensures matched == Selects(t, path)
  {
    var rules := Get(t, path);
    if rules.None? {
      var i := 0;
      while i < |t| && rules.None?
        invariant 0 <= i <= |t|
        invariant rules.None? ==> forall j | 0 <= j < i :: !(t[j].0 <= path)
        invariant rules.Some? ==> 0 < i && rules == Some(t[i - 1].1) && t[i - 1].0 <= path
        invariant rules.Some? ==> forall j | 0 <= j < i - 1 :: !(t[j].0 <= path)
      {
        if t[i].0 <= path {
          rules := Some(t[i].1);
        }
        i := i + 1;
      }
      if rules.None? {
        rules := Get(t, "");
      }
    }
    assert rules == Group(t, path);
    matched := false;
    if rules.Some? {
      var group := rules.value;
      var k := 0;
      while k < |group| && !matched
        invariant 0 <= k <= |group|
        invariant !matched ==> forall j | 0 <= j < k :: !Glob.Accepts(group[j], path)
        invariant matched ==> 0 < k && Glob.Accepts(group[k - 1], path)
      {
        matched := Glob.Accepts(group[k], path);
        k := k + 1;
      }
    }
  }

  /**
   * `ignore(type)`: an include match means not ignored whatever the other
   * tables say; otherwise a `top` match on the path ignores; otherwise the
   * `every` test on the name decides.
   */
  method Ignore(rules: RuleTables, subPath: string, basename: string, isDir: bool) returns (ignored: bool)
    ensures ignored == Ignored(rules, subPath, basename, isDir)
    ensures Selects(rules.includes, EntryPath(subPath, basename, isDir)) ==> !ignored
    ensures !Selects(rules.includes, EntryPath(subPath, basename, isDir)) && Selects(rules.top, EntryPath(subPath, basename, isDir)) ==> ignored
    ensures !Selects(rules.includes, EntryPath(subPath, basename, isDir)) && !Selects(rules.top, EntryPath(subPath, basename, isDir)) ==>
      ignored == Selects(rules.every, EntryName(basename, isDir))
  {
    var path := subPath + "/" + basename + (if isDir then "/" else "");
    var included := Select(rules.includes, path);
    if included {
      return false;
    }
    var anchored := Select(rules.top, path);
    if anchored {
      return true;
    }
    ignored := Select(rules.every, basename + (if isDir then "/" else ""));
  }

  /** The loop over `include` keys in the ignored-directory branch. */
  method HasIncludeUnder(rules: RuleTables, path: string) returns (found: bool)
    ensures found == IncludeUnder(rules, path)
  {
    found := false;
    var i := 0;
    while i < |rules.includes| && !found
      invariant 0 <= i <= |rules.includes|
      invariant !found ==> forall j | 0 <= j < i :: !(path <= rules.includes[j].0)
      invariant found ==> 0 < i && path <= rules.includes[i - 1].0
    {
      found := path <= rules.includes[i].0;
      i := i + 1;
    }
  }

  class Walker {
    const rootPath: string
    const ignoreRules: RuleSet
    var stats: Stats

    constructor (rootPath: string)
      ensures this.rootPath == rootPath && fresh(ignoreRules)
      ensures ignoreRules.Value() == Rules.Empty && stats == NoStats
    {
      this.rootPath := rootPath;
      ignoreRules := new RuleSet();
      stats := NoStats;
    }

    /** `_insertIgnoreRule`: file one rule into `rules` and count it. */
    method InsertIgnoreRule(rules: RuleSet, rule: string, subPath: string, opts: Options)
      modifies rules, this
      ensures Loading(rules.Value(), stats) == Insert(old(Loading(rules.Value(), stats)), rule, subPath, opts)
    {
      if opts.includeDependencies && IsDependencyRule(rule) {
        return;
      }
      var key := KeyText(rule);
      var text := rule;
      var scope := if StartsWith(rule, '!') then Include else if StartsWith(rule, '/') then Top else Every;
      if scope == Include {
        key := key[1..];
        text := rule[1..];
      }
      if subPath != [] && StartsWith(key, '/') {
        key := subPath + key;
      }
      assert Place(rule, subPath, opts.includeDependencies) == Filed(scope, key, text);
      match scope {
        case Include => rules.includes := Append(rules.includes, key, text);
        case Top => rules.top := Append(rules.top, key, text);
        case Every => rules.every := Append(rules.every, key, text);
      }
      stats := stats.(ignoreRulesCount := stats.ignoreRulesCount + 1);
    }

    /** `_loadIgnoreRulesFile`: `Ok(false)` when the file is absent. */
    method LoadIgnoreRulesFile(rules: RuleSet, listing: Listing, subPath: string, basename: string, opts: Options, probes: set<string>)
      returns (r: Result<bool, WalkError>)
      modifies rules, this
      ensures match ProbeFile(Lookup(listing, basename))
        case Absent => r == Ok(false) && rules.Value() == old(rules.Value()) && stats == old(stats)
        case Unreadable => r == Err(IgnoreFileUnreadable(rootPath + subPath + "/" + basename))
        case Text(content) =>
          r == Ok(true) && Loading(rules.Value(), stats) == LoadFile(old(Loading(rules.Value(), stats)), content, Ctx(rootPath, opts, probes), subPath)
    {
      match ProbeFile(Lookup(listing, basename))
      case Absent =>
        return Ok(false);
      case Unreadable =>
        return Err(IgnoreFileUnreadable(rootPath + subPath + "/" + basename));
      case Text(content) =>
        var lines := Lines(content);
        var i := 0;
        while i < |lines|
          invariant 0 <= i <= |lines|
          invariant Loading(rules.Value(), stats) == InsertLines(old(Loading(rules.Value(), stats)), lines[..i], subPath, opts)
        {
          assert lines[..i + 1][..i] == lines[..i];
          if lines[i] != [] {
            InsertIgnoreRule(rules, lines[i], subPath, opts);
          }
          i := i + 1;
        }
        assert lines[..i] == lines;
        if ProbePath(rootPath, subPath, ".git") in probes {
          InsertIgnoreRule(rules, ".git/", subPath, opts);
        }
        if ProbePath(rootPath, subPath, ".svn") in probes {
          InsertIgnoreRule(rules, ".svn/", subPath, opts);
        }
        InsertIgnoreRule(rules, "*~backup-*/", subPath, opts);
        InsertIgnoreRule(rules, ".sm/", subPath, opts);
        return Ok(true);
    }

    /** The loop over the candidate files: stop at the first one that exists, and name the rule set after it. */
    method LoadFirstIgnoreFile(rules: RuleSet, listing: Listing, subPath: string, ignoreFiles: seq<string>, opts: Options, probes: set<string>)
      returns (r: Result<(), WalkError>)
      modifies rules, this
      ensures var spec := TryCandidates(old(Loading(rules.Value(), stats)), ignoreFiles, listing, Ctx(rootPath, opts, probes), subPath);
        && (r.Ok? <==> spec.Ok?)
        && (r.Err? ==> r.error == spec.error)
        && (r.Ok? ==> Loading(rules.Value(), stats) == spec.value)
    {
      ghost var c := Ctx(rootPath, opts, probes);
      ghost var start := Loading(rules.Value(), stats);
      var found := false;
      var i := 0;
      while i < |ignoreFiles|
        invariant 0 <= i <= |ignoreFiles|
        invariant !found ==> Loading(rules.Value(), stats) == start
        invariant !found ==> TryCandidates(start, ignoreFiles, listing, c, subPath) == TryCandidates(start, ignoreFiles[i..], listing, c, subPath)
        invariant found ==> TryCandidates(start, ignoreFiles, listing, c, subPath) == Ok(Loading(rules.Value(), stats))
      {
        if !found {
          assert ignoreFiles[i..][0] == ignoreFiles[i];
          assert ignoreFiles[i..][1..] == ignoreFiles[i + 1..];
          var loaded := LoadIgnoreRulesFile(rules, listing, subPath, ignoreFiles[i], opts, probes);
          if loaded.Err? {
            return Err(loaded.error);
          }
          if loaded.value {
            found := true;
            rules.filename := Some(ignoreFiles[i]);
          }
        }
        i := i + 1;
      }
      return Ok(());
    }

    /** `_loadIgnoreRules`: at most one candidate file, then the defaults if the set still has no file name. */
    method LoadIgnoreRules(rules: RuleSet, listing: Listing, subPath: string, opts: Options, probes: set<string>)
      returns (r: Result<(), WalkError>)
      modifies rules, this
      ensures var spec := LoadRules(old(Loading(rules.Value(), stats)), listing, Ctx(rootPath, opts, probes), subPath);
        && (r.Ok? <==> spec.Ok?)
        && (r.Err? ==> r.error == spec.error)
        && (r.Ok? ==> Loading(rules.Value(), stats) == spec.value)
    {
      var ignoreFiles: seq<string> := [];
      if opts.respectDistignore {
        ignoreFiles := ignoreFiles + [".distignore"];
      }
      if subPath == [] || opts.respectNestedIgnore {
        ignoreFiles := ignoreFiles + [".npmignore"];
        ignoreFiles := ignoreFiles + [".gitignore"];
      }
      assert ignoreFiles == Candidates(subPath, opts);
      r := LoadFirstIgnoreFile(rules, listing, subPath, ignoreFiles, opts, probes);
      if r.Err? {
        return;
      }
      if rules.filename.None? {
        rules.filename := Some("default");
        InsertIgnoreRule(rules, ".*", subPath, opts);
        InsertIgnoreRule(rules, "*~backup-*", subPath, opts);
        InsertIgnoreRule(rules, "/dist/", subPath, opts);
        InsertIgnoreRule(rules, "program.dev.json", subPath, opts);
      }
    }

    /**
     * `walkTree(inherited, subPath)` over `node`, the directory at `subPath`,
     * with `traversed` the set `traversedSymlink` so far.
     */
    method WalkTree(inherited: RuleSet, subPath: string, node: Node, opts: Options, probes: set<string>, traversed: set<string>)
      returns (r: Result<Manifest, WalkError>, traversedAfter: set<string>)
      modifies this
      decreases node, 1
      ensures var spec := WalkDir(node, old(inherited.Value()), Ctx(rootPath, opts, probes), subPath, old(stats), traversed);
        && (r.Ok? <==> spec.Ok?)
        && (r.Err? ==> r.error == spec.error)
        && (r.Ok? ==> r.value == spec.value.list && stats == spec.value.stats && traversedAfter == spec.value.traversed)
    {
      var rules := new RuleSet.Clone(inherited);
      var loaded := LoadIgnoreRules(rules, ListingOf(node), subPath, opts, probes);
      if loaded.Err? {
        return Err(loaded.error), traversed;
      }
      if !(node.Dir? && node.listing.Listed?) {
        return Err(ListFailed(rootPath + subPath)), traversed;
      }
      r, traversedAfter := WalkEntries(rules, subPath, node, opts, probes, traversed);
    }

    /** The entries of a listed directory, one after the other; the first failure ends the directory. */
    method WalkEntries(rules: RuleSet, subPath: string, node: Node, opts: Options, probes: set<string>, traversed: set<string>)
      returns (r: Result<Manifest, WalkError>, traversedAfter: set<string>)
      requires node.Dir? && node.listing.Listed?
      modifies this
      decreases node, 0
      ensures var spec := Fold(node, rules.Value(), Ctx(rootPath, opts, probes), subPath, Walked(map[], old(stats), traversed), |node.listing.entries|);
        && (r.Ok? <==> spec.Ok?)
        && (r.Err? ==> r.error == spec.error)
        && (r.Ok? ==> r.value == spec.value.list && stats == spec.value.stats && traversedAfter == spec.value.traversed)
    {
      ghost var c := Ctx(rootPath, opts, probes);
      var entries := node.listing.entries;
      ghost var start := Walked(map[], stats, traversed);
      var list: Manifest := map[];
      traversedAfter := traversed;
      var i := 0;
      while i < |entries|
        invariant 0 <= i <= |entries|
        invariant Fold(node, rules.Value(), c, subPath, start, i) == Ok(Walked(list, stats, traversedAfter))
      {
        assert Fold(node, rules.Value(), c, subPath, start, i + 1)
            == Step(entries[i].0, entries[i].1, rules.Value(), c, subPath, Walked(list, stats, traversedAfter));
        var step;
        step, list, traversedAfter := WalkEntry(rules, subPath, entries[i].0, entries[i].1, opts, probes, list, traversedAfter);
        if step.Err? {
          FoldErr(node, rules.Value(), c, subPath, start, i + 1, |entries|);
          return Err(step.error), traversedAfter;
        }
        i := i + 1;
      }
      return Ok(list), traversedAfter;
    }

    /** The `lstat` callback for one entry of the directory at `subPath`, given the directory's list so far. */
    method WalkEntry(rules: RuleSet, subPath: string, basename: string, child: Node, opts: Options, probes: set<string>,
                     list: Manifest, traversed: set<string>)
      returns (step: Result<(), WalkError>, listAfter: Manifest, traversedAfter: set<string>)
      modifies this
      decreases child, 2
      ensures var spec := Step(basename, child, rules.Value(), Ctx(rootPath, opts, probes), subPath, Walked(list, old(stats), traversed));
        && (step.Ok? <==> spec.Ok?)
        && (step.Err? ==> step.error == spec.error)
        && (step.Ok? ==> Walked(listAfter, stats, traversedAfter) == spec.value)
    {
      var path := subPath + "/" + basename;
      step, listAfter, traversedAfter := Ok(()), list, traversed;
      match child {
        case Unstattable =>
          step := Err(StatFailed(rootPath + path));
        case Other(_) =>
        case File(mtime, size, _) =>
          stats := stats.(totalFiles := stats.totalFiles + 1);
          var ignored := Ignore(rules.Value(), subPath, basename, false);
          if !ignored {
            stats := stats.(totalSize := stats.totalSize + mtime);
            listAfter := list[path := FileEntry(mtime, size)];
          } else {
            stats := stats.(ignoredFiles := stats.ignoredFiles + 1);
          }
        case Dir(mtime, _) =>
          var ignored := Ignore(rules.Value(), subPath, basename, true);
          var walk := true;
          if !ignored {
            listAfter := list[path := DirEntry(mtime)];
          } else {
            walk := HasIncludeUnder(rules.Value(), path);
          }
          if walk {
            var sub, tr := WalkTree(rules, path, child, opts, probes, traversed);
            if sub.Err? {
              step := Err(sub.error);
            } else {
              listAfter, traversedAfter := listAfter + sub.value, tr;
            }
          }
        case Link(mtime, target, resolution) =>
          match resolution {
            case Missing =>
            case Unresolvable =>
              step := Err(ResolveFailed(rootPath + path));
            case Resolved(realPath, found) =>
              if found.Unstattable? {
                step := Err(StatFailed(realPath));
              } else {
                stats := stats.(totalFiles := stats.totalFiles + 1);
                var ignored := Ignore(rules.Value(), subPath, basename, found.Dir?);
                if ignored {
                  stats := stats.(ignoredFiles := stats.ignoredFiles + 1);
                } else {
                  listAfter := list[path := LinkEntry(mtime, found.Dir?, target, realPath)];
                  if found.Dir? && realPath !in traversed {
                    var sub, tr := WalkTree(rules, path, found, opts, probes, traversed + {realPath});
                    if sub.Err? {
                      step := Err(sub.error);
                    } else {
                      listAfter, traversedAfter := listAfter + sub.value, tr;
                    }
                  }
                }
              }
          }
      }
    }

    /** `walk(options)`: load the root rules into the walker's own set, then walk from the root. */
    method Walk(root: Node, opts: Options, probes: set<string>) returns (r: Result<Manifest, WalkError>)
      modifies this, ignoreRules
      ensures var spec := WalkSpec(root, old(ignoreRules.Value()), old(stats), Ctx(rootPath, opts, probes));
        && (r.Ok? <==> spec.Ok?)
        && (r.Err? ==> r.error == spec.error)
        && (r.Ok? ==> r.value == spec.value.1.list && stats == spec.value.1.stats && ignoreRules.Value() == spec.value.0)
    {
      var loaded := LoadIgnoreRules(ignoreRules, ListingOf(root), "", opts, probes);
      if loaded.Err? {
        return Err(loaded.error);
      }
      var walked, _ := WalkTree(ignoreRules, "", root, opts, probes, {});
      return walked;
    }
  }
}
