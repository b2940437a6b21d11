/**
 * The ignore-rule engine of the walker: how one pattern line is filed into the
 * `include`, `top` or `every` table, and how `select` and `ignore` decide
 * whether an entry is ignored.
 *
 * A table is a JavaScript object from a key (the pattern text before its first
 * `*`) to the ordered list of matchers filed under it. A matcher is the closure
 * `applyRule` over the rule text, so the model stores the text and applies
 * `Glob.Accepts` to it.
 */
module Rules {
  import opened Base
  import opened Props
  import Glob

  datatype Scope = Include | Top | Every

  /** Key to the ordered rule texts filed under it, in JavaScript key order. */
  type Table = Props<seq<string>>

  /** The tables of one rule set, as a value (what `LODASH.cloneDeep` copies). */
  datatype RuleTables = RuleTables(top: Table, every: Table, includes: Table, filename: Option<string>)

  const Empty := RuleTables([], [], [], None)

  function TableOf(rs: RuleTables, s: Scope): Table {
    match s
    case Include => rs.includes
    case Top => rs.top
    case Every => rs.every
  }

  function WithTable(rs: RuleTables, s: Scope, t: Table): (r: RuleTables)
    ensures TableOf(r, s) == t && r.filename == rs.filename
    ensures forall s' | s' != s :: TableOf(r, s') == TableOf(rs, s')
  {
    match s
    case Include => rs.(includes := t)
    case Top => rs.(top := t)
    case Every => rs.(every := t)
  }

  predicate StartsWith(s: string, c: char) {
    |s| > 0 && s[0] == c
  }

  /** `/^\/?node_modules\/?$/`: the rule names the dependency directory. */
  predicate IsDependencyRule(rule: string) {
    rule == "node_modules" || rule == "/node_modules" || rule == "node_modules/" || rule == "/node_modules/"
  }

  /** `rule.split("*")[0]`: the longest prefix of `rule` without a `*`. */
  function KeyText(rule: string): (k: string)
    ensures k <= rule && '*' !in k
    ensures |k| < |rule| ==> rule[|k|] == '*'
  {
    if rule == [] || rule[0] == '*' then [] else [rule[0]] + KeyText(rule[1..])
  }

  /** Where `_insertIgnoreRule` files a rule, or that it drops it. */
  datatype Placement = Dropped | Filed(scope: Scope, key: string, text: string)

  function Place(rule: string, subPath: string, includeDependencies: bool): (p: Placement)
    ensures p.Dropped? <==> includeDependencies && IsDependencyRule(rule)
    ensures p.Filed? ==> (p.scope == Include <==> StartsWith(rule, '!'))
    ensures p.Filed? ==> (p.scope == Top <==> !StartsWith(rule, '!') && StartsWith(rule, '/'))
    ensures p.Filed? ==> p.text == if p.scope == Include then rule[1..] else rule
    ensures p.Filed? && (subPath == [] || !StartsWith(KeyText(p.text), '/')) ==> p.key == KeyText(p.text)
    ensures p.Filed? && subPath != [] && StartsWith(KeyText(p.text), '/') ==> p.key == subPath + KeyText(p.text)
  {
    if includeDependencies && IsDependencyRule(rule) then Dropped
    else
      var key0 := KeyText(rule);
      var scope := if StartsWith(rule, '!') then Include else if StartsWith(rule, '/') then Top else Every;
      var key1 := if scope == Include then key0[1..] else key0;
      var text := if scope == Include then rule[1..] else rule;
      assert scope == Include ==> key1 == KeyText(text) by {
        if scope == Include {
          assert rule == [rule[0]] + rule[1..];
        }
      }
      var key := if subPath != [] && StartsWith(key1, '/') then subPath + key1 else key1;
      Filed(scope, key, text)
  }

  /** `t[key].push(text)`, creating the list when the key is missing. */
  function Append(t: Table, key: string, text: string): Table {
    Put(t, key, Get(t, key).GetOr([]) + [text])
  }

  /** The tables after `_insertIgnoreRule(rs, rule, subPath, options)`. */
  function InsertRule(rs: RuleTables, rule: string, subPath: string, includeDependencies: bool): RuleTables {
    match Place(rule, subPath, includeDependencies)
    case Dropped => rs
    case Filed(scope, key, text) => WithTable(rs, scope, Append(TableOf(rs, scope), key, text))
  }

  /** What the insertion adds to `ignoreRulesCount`. */
  function Added(rule: string, includeDependencies: bool): nat {
    if includeDependencies && IsDependencyRule(rule) then 0 else 1
  }

  /**
   * A filed rule is appended to the end of the list under its key (a new list
   * when the key was missing); no other key, no other table and not the file
   * name changes, and the rule counts once.
   */
  lemma InsertEffect(rs: RuleTables, rule: string, subPath: string, idep: bool, s: Scope, k: string)
    ensures var p := Place(rule, subPath, idep);
      var r := InsertRule(rs, rule, subPath, idep);
      && r.filename == rs.filename
      && Added(rule, idep) == (if p.Filed? then 1 else 0)
      && Get(TableOf(r, s), k) ==
           if p.Filed? && p.scope == s && p.key == k
           then Some(Get(TableOf(rs, s), k).GetOr([]) + [p.text])
           else Get(TableOf(rs, s), k)
  {
    var p := Place(rule, subPath, idep);
    if p.Filed? {
      var t := TableOf(rs, p.scope);
      GetPut(t, p.key, Get(t, p.key).GetOr([]) + [p.text], k);
    }
  }

  /** Inserting keeps each table in JavaScript key order. */
  lemma InsertOrdered(rs: RuleTables, rule: string, subPath: string, idep: bool)
    requires Ordered(rs.top) && Ordered(rs.every) && Ordered(rs.includes)
    ensures var r := InsertRule(rs, rule, subPath, idep);
      Ordered(r.top) && Ordered(r.every) && Ordered(r.includes)
  {
    var p := Place(rule, subPath, idep);
    if p.Filed? {
      var t := TableOf(rs, p.scope);
      PutOrdered(t, p.key, Get(t, p.key).GetOr([]) + [p.text]);
    }
  }

  /** The position of the first key, in enumeration order, that is a prefix of `path`. */
  function FirstPrefix(t: Table, path: string): (r: Option<nat>)
    ensures r.Some? ==> r.value < |t| && t[r.value].0 <= path
    ensures r.Some? ==> forall j | 0 <= j < r.value :: !(t[j].0 <= path)
    ensures r.None? ==> forall j | 0 <= j < |t| :: !(t[j].0 <= path)
  {
    if t == [] then None
    else if t[0].0 <= path then Some(0)
    else match FirstPrefix(t[1..], path)
      case None => None
      case Some(i) => Some(i + 1)
  }

  /**
   * The one group `select` consults: the group keyed by the path itself, else
   * the first key that is a prefix of the path, else the group keyed `""`.
   */
  function Group(t: Table, path: string): Option<seq<string>> {
    if Get(t, path).Some? then Get(t, path)
    else match FirstPrefix(t, path)
      case Some(i) => Some(t[i].1)
      case None => Get(t, "")
  }

  /** Some rule of `rules` accepts `path`. */
  predicate AnyAccepts(rules: seq<string>, path: string) {
    exists i | 0 <= i < |rules| :: Glob.Accepts(rules[i], path)
  }

  /** `select(t, path)` is truthy: a group was found and one of its matchers accepts. */
  predicate Selects(t: Table, path: string) {
    match Group(t, path)
    case None => false
    case Some(rules) => AnyAccepts(rules, path)
  }

  /** When the path is itself a key, only that key's matchers decide. */
  lemma {:induction false} SelectExact(t: Table, path: string, i: nat)
    requires i < |t| && t[i].0 == path
    requires forall j | 0 <= j < i :: t[j].0 != path
    ensures Selects(t, path) <==> AnyAccepts(t[i].1, path)
  {
    FindAt(t, path, i);
  }

  /**
   * Otherwise the first key in enumeration order that is a prefix of the path
   * decides alone, even when a later key is a longer prefix.
   */
  lemma {:induction false} SelectFirstPrefix(t: Table, path: string, i: nat)
    requires forall j | 0 <= j < |t| :: t[j].0 != path
    requires i < |t| && t[i].0 <= path
    requires forall j | 0 <= j < i :: !(t[j].0 <= path)
    ensures Selects(t, path) <==> AnyAccepts(t[i].1, path)
  {
    FindAbsent(t, path);
  }

  /** With no key a prefix of the path, no group is found and the path is not selected. */
  lemma {:induction false} SelectNone(t: Table, path: string)
    requires forall j | 0 <= j < |t| :: !(t[j].0 <= path)
    ensures !Selects(t, path)
  {
    FindAbsent(t, path);
    assert forall j | 0 <= j < |t| :: t[j].0 != "" by {
      forall j | 0 <= j < |t| ensures t[j].0 != "" {
        assert !(t[j].0 <= path);
      }
    }
    FindAbsent(t, "");
  }

  /** The path `ignore` tests against `include` and `top`: root-relative, `/` appended for directories. */
  function EntryPath(subPath: string, basename: string, isDir: bool): string {
    subPath + "/" + basename + (if isDir then "/" else "")
  }

  /** The name `ignore` tests against `every`. */
  function EntryName(basename: string, isDir: bool): string {
    basename + (if isDir then "/" else "")
  }

  /** `ignore(type)` inside `walkTree`. */
  predicate Ignored(rs: RuleTables, subPath: string, basename: string, isDir: bool) {
    if Selects(rs.includes, EntryPath(subPath, basename, isDir)) then false
    else if Selects(rs.top, EntryPath(subPath, basename, isDir)) then true
    else Selects(rs.every, EntryName(basename, isDir))
  }

  /** Some `include` key has `path` as a prefix (the loop at the ignored-directory branch). */
  predicate IncludeUnder(rs: RuleTables, path: string) {
    exists j | 0 <= j < |rs.includes| :: path <= rs.includes[j].0
  }
}
