/**
 * The value formatters `normalize` hands to its merge helpers: the twitter
 * handle without its `@`, the component repository object, the component
 * dependency and export maps, and `prefixRelativePath`.
 *
 * A formatter reads its input through the heap as it stood when the formatter
 * was called; the only objects it writes are the ones it creates, which
 * nothing else references yet.
 */
module Formats {
  import opened Base
  import opened Props
  import opened Js

  /** `/^(\.|\/)/` matches. */
  predicate Relative(p: string) {
    |p| > 0 && (p[0] == '.' || p[0] == '/')
  }

  /** `prefixRelativePath(path)` on a string: a path not starting with `.` or `/` gets `./` in front. */
  function PrefixRelativePath(p: string): (r: string)
    ensures Relative(r)
    ensures r == p <==> Relative(p)
    ensures r == p || r == "./" + p
  {
    if Relative(p) then p else "./" + p
  }

  /** Prefixing twice is prefixing once. */
  lemma PrefixIdempotent(p: string)
    ensures PrefixRelativePath(PrefixRelativePath(p)) == PrefixRelativePath(p)
  {
  }

  /** `prefixRelativePath(path)` on any value: the value itself when its text is relative, else the prefixed text. */
  function PrefixValue(h: Heap, v: Val): (r: Val)
    ensures r == v || r == Str("./" + Text(h, v))
    ensures Relative(Text(h, r))
  {
    var t := Text(h, v);
    if Relative(t) then v else Str(PrefixRelativePath(t))
  }

  /** The twitter formatter: `value.replace(/^@/, "")`. */
  function StripLeadingAt(s: string): (r: string)
    ensures s == r || s == "@" + r
    ensures s == r <==> !(|s| > 0 && s[0] == '@')
  {
    if |s| > 0 && s[0] == '@' then s[1..] else s
  }

  /** `"http://github.com/" + name + ".git"`. */
  function GitHubUrl(name: string): string {
    "http://github.com/" + name + ".git"
  }

  /** `{type: "git", url: GitHubUrl(name)}`. */
  function RepoObject(name: string): Obj {
    Obj(false, [("type", Str("git")), ("url", Str(GitHubUrl(name)))], 0)
  }

  /** `id.replace("/", "-")`: the first `/` becomes `-`. */
  function Dashed(s: string): string {
    if s == [] then []
    else if s[0] == '/' then "-" + s[1..]
    else [s[0]] + Dashed(s[1..])
  }

  /** Only the first `/` changes: the text before it and after it stays. */
  lemma {:induction false} DashedFirstSlash(s: string, i: nat)
    requires i < |s| && s[i] == '/' && '/' !in s[..i]
    ensures Dashed(s) == s[..i] + "-" + s[i + 1..]
  {
    if i > 0 {
      assert s[0] != '/' by {
        assert s[..i][0] == s[0];
      }
      assert s[1..][..i - 1] == s[1..i];
      assert '/' !in s[1..][..i - 1];
      DashedFirstSlash(s[1..], i - 1);
      assert s[..i] == [s[0]] + s[1..][..i - 1];
    }
  }

  /** The entry `formatComponentDependencies` makes for `id`, whose repository object sits at `p + 1`. */
  function DepObject(p: nat, selector: Val): Obj {
    Obj(false, [("repository", Ref(p + 1)), ("selector", selector)], 0)
  }

  /** The two objects round `j` allocates for `id`: its entry at `base + 2 * j`, then its repository object. */
  function DepsRound(h: Heap, v: Val, base: nat, j: nat, id: string): seq<Obj> {
    [DepObject(base + 2 * j, OwnValue(h, v, id)), RepoObject(id)]
  }

  /** The objects the first `|ids|` rounds of the `for (id in value)` loop allocate after `base`, two per round. */
  function DepsMade(h: Heap, v: Val, base: nat, ids: seq<string>): (r: seq<Obj>)
    ensures |r| == 2 * |ids|
  {
    if ids == [] then []
    else
      DepsMade(h, v, base, ids[..|ids| - 1]) + DepsRound(h, v, base, |ids| - 1, ids[|ids| - 1])
  }

  /** The key each round files its entry under: `id.replace("/", "-")`. */
  function DashedKeys(ids: seq<string>): (r: seq<string>)
    ensures |r| == |ids|
  {
    if ids == [] then [] else DashedKeys(ids[..|ids| - 1]) + [Dashed(ids[|ids| - 1])]
  }

  /** The key of round `j` is `ids[j]` with its first `/` made `-`. */
  lemma {:induction false} DashedKeysAt(ids: seq<string>, j: nat)
    requires j < |ids|
    ensures DashedKeys(ids)[j] == Dashed(ids[j])
    decreases |ids|
  {
    if j < |ids| - 1 {
      DashedKeysAt(ids[..|ids| - 1], j);
    }
  }

  /** The properties of the map after the first `|keys|` rounds: round `j` files its entry, at `base + 2 * j`, under `keys[j]`. */
  function DepsMap(base: nat, keys: seq<string>): Props<Val> {
    if keys == [] then []
    else Put(DepsMap(base, keys[..|keys| - 1]), keys[|keys| - 1], Ref(base + 2 * (|keys| - 1)))
  }

  /** One more round of the dependency loop: one entry put into the map, two objects allocated. */
  lemma DepsStep(h: Heap, v: Val, base: nat, ids: seq<string>, keys: seq<string>, i: nat, deps: Props<Val>, made: seq<Obj>)
    requires i < |ids| == |keys| && deps == DepsMap(base, keys[..i]) && made == DepsMade(h, v, base, ids[..i])
    ensures Put(deps, keys[i], Ref(base + 2 * i)) == DepsMap(base, keys[..i + 1])
    ensures made + DepsRound(h, v, base, i, ids[i]) == DepsMade(h, v, base, ids[..i + 1])
  {
    assert keys[..i + 1][..i] == keys[..i];
    assert ids[..i + 1][..i] == ids[..i];
  }

  /** `formatComponentDependencies(value)`: the heap after it and the map it returns. */
  function ComponentDependencies(h: Heap, v: Val): (Heap, Val) {
    var h1 := h + [EmptyObject];
    var ids := ForInKeys(h1, v);
    ((h1 + DepsMade(h1, v, |h1|, ids))[|h| := Obj(false, DepsMap(|h1|, DashedKeys(ids)), 0)], Ref(|h|))
  }

  /** The element at index `i` of an array when it is present. */
  function ElementAt(o: Obj, i: nat): Option<Val> {
    Get(o.props, NatText(i))
  }

  /** The first `n` rounds of `value.forEach(path => exports[path] = prefixRelativePath(path))`. */
  function ArrayExports(h: Heap, o: Obj, n: nat): Props<Val> {
    if n == 0 then []
    else
      var acc := ArrayExports(h, o, n - 1);
      match ElementAt(o, n - 1)
      case None => acc
      case Some(e) => Put(acc, Text(h, e), PrefixValue(h, e))
  }

  /** The rounds of `for (path in value) exports[path] = prefixRelativePath(value[path])` over `keys`. */
  function KeyExports(h: Heap, v: Val, keys: seq<string>): Props<Val> {
    if keys == [] then []
    else
      var k := keys[|keys| - 1];
      Put(KeyExports(h, v, keys[..|keys| - 1]), k, PrefixValue(h, OwnValue(h, v, k)))
  }

  /** One more round of the `for (path in value)` loop. */
  lemma KeyExportsStep(h: Heap, v: Val, keys: seq<string>, i: nat, exports: Props<Val>)
    requires i < |keys| && exports == KeyExports(h, v, keys[..i])
    ensures Put(exports, keys[i], PrefixValue(h, OwnValue(h, v, keys[i]))) == KeyExports(h, v, keys[..i + 1])
  {
    assert keys[..i + 1][..i] == keys[..i];
  }

  /** `formatComponentExports(value)`: the heap after it and the map it returns. */
  function ComponentExportsOf(h: Heap, v: Val): (Heap, Val) {
    var h1 := h + [EmptyObject];
    var props := if IsArray(h1, v) then ArrayExports(h1, h1[v.loc], h1[v.loc].length) else KeyExports(h1, v, ForInKeys(h1, v));
    (h1[|h| := Obj(false, props, 0)], Ref(|h|))
  }

  /** The twitter formatter, `value.replace(/^@/, "")`: a value that is not a string has no `replace` to call. */
  function StripAt(h: Heap, v: Val): (r: Result<(Heap, Val), Thrown>)
    ensures r.Err? <==> !v.Str?
    ensures r.Ok? ==> r.value.0 == h && r.value.1.Str? && v.s in {r.value.1.s, "@" + r.value.1.s}
  {
    if v.Str? then Ok((h, Str(StripLeadingAt(v.s)))) else Err(TypeError)
  }

  /** The component `repo` formatter: a new repository object for the GitHub project named by the value. */
  function RepoUrl(h: Heap, v: Val): (r: Result<(Heap, Val), Thrown>)
    ensures r.Ok? && |r.value.0| == |h| + 1 && r.value.0[..|h|] == h && r.value.1 == Ref(|h|)
    ensures r.value.0[|h|].props == [("type", Str("git")), ("url", Str("http://github.com/" + Text(h, v) + ".git"))]
  {
    var a := Alloc(h, RepoObject(Text(h, v)));
    assert a.0[..|h|] == h;
    Ok(a)
  }

  /** `formatComponentDependencies` as the merge helpers call it; it only adds objects to the heap. */
  function ComponentDeps(h: Heap, v: Val): (r: Result<(Heap, Val), Thrown>)
    ensures r.Ok? && |r.value.0| > |h| && r.value.0[..|h|] == h && r.value.1 == Ref(|h|)
  {
    var a := ComponentDependencies(h, v);
    assert a.0[..|h|] == h;
    Ok(a)
  }

  /** `helpers.prefixRelativePath` as the merge helpers call it; it neither throws nor allocates. */
  function PrefixRelative(h: Heap, v: Val): (r: Result<(Heap, Val), Thrown>)
    ensures r.Ok? && r.value.0 == h
    ensures v.Str? ==> r.value.1.Str? && Relative(r.value.1.s)
  {
    Ok((h, PrefixValue(h, v)))
  }

  /** `formatComponentExports` as the merge helpers call it; it only adds one object to the heap. */
  function ComponentExports(h: Heap, v: Val): (r: Result<(Heap, Val), Thrown>)
    ensures r.Ok? && |r.value.0| == |h| + 1 && r.value.0[..|h|] == h && r.value.1 == Ref(|h|)
  {
    var a := ComponentExportsOf(h, v);
    assert a.0[..|h|] == h;
    Ok(a)
  }

  /** `formatComponentDependencies`: a fresh `dependencies` object filled by a loop that allocates two objects a round. */
  method FormatComponentDependencies(h0: Heap, v: Val) returns (h: Heap, r: Val)
    ensures (h, r) == ComponentDependencies(h0, v)
  {
    var d := |h0|;
    h := h0 + [EmptyObject];
    r := Ref(d);
    var ids := ForInKeys(h, v);
    var dependencies, made := DependencyEntries(h, v, ids);
    assert |h| == d + 1;
    h := (h + made)[d := Obj(false, dependencies, 0)];
  }

  /**
   * `for (id in value) dependencies[id.replace("/", "-")] = {repository: ..., selector: value[id]}`:
   * the properties `dependencies` ends with and the objects allocated after `h`.
   */
  method DependencyEntries(h: Heap, v: Val, ids: seq<string>) returns (dependencies: Props<Val>, made: seq<Obj>)
    ensures dependencies == DepsMap(|h|, DashedKeys(ids)) && made == DepsMade(h, v, |h|, ids)
  {
    var keys := DashedKeys(ids);
    dependencies, made := [], [];
    for i := 0 to |ids|
      invariant dependencies == DepsMap(|h|, keys[..i]) && made == DepsMade(h, v, |h|, ids[..i])
    {
      DepsStep(h, v, |h|, ids, keys, i, dependencies, made);
      // The entry goes to the next free location, `|h| + |made|`: two objects were allocated per earlier round.
      dependencies := Put(dependencies, keys[i], Ref(|h| + 2 * i));
      made := made + DepsRound(h, v, |h|, i, ids[i]);
    }
    assert ids[..|ids|] == ids && keys[..|ids|] == keys;
  }

  /** `formatComponentExports`: a fresh `exports` object filled by one of two loops. */
  method FormatComponentExports(h0: Heap, v: Val) returns (h: Heap, r: Val)
    ensures (h, r) == ComponentExportsOf(h0, v)
  {
    var d := |h0|;
    h := h0 + [EmptyObject];
    r := Ref(d);
    var exports;
    if IsArray(h, v) {
      exports := ExportPaths(h, h[v.loc]);
    } else {
      exports := ExportKeys(h, v, ForInKeys(h, v));
    }
    h := h[d := Obj(false, exports, 0)];
  }

  /** `value.forEach(path => exports[path] = prefixRelativePath(path))`: the properties `exports` ends with. */
  method ExportPaths(h: Heap, o: Obj) returns (exports: Props<Val>)
    ensures exports == ArrayExports(h, o, o.length)
  {
    exports := [];
    var i := 0;
    while i < o.length
      invariant 0 <= i <= o.length
      invariant exports == ArrayExports(h, o, i)
      decreases o.length - i
    {
      var element := ElementAt(o, i);
      if element.Some? {
        var path := element.value;
        exports := Put(exports, Text(h, path), PrefixValue(h, path));
      }
      i := i + 1;
    }
  }

  /** `for (path in value) exports[path] = prefixRelativePath(value[path])`: the properties `exports` ends with. */
  method ExportKeys(h: Heap, v: Val, keys: seq<string>) returns (exports: Props<Val>)
    ensures exports == KeyExports(h, v, keys)
  {
    exports := [];
    for i := 0 to |keys|
      invariant exports == KeyExports(h, v, keys[..i])
    {
      KeyExportsStep(h, v, keys, i, exports);
      exports := Put(exports, keys[i], PrefixValue(h, OwnValue(h, v, keys[i])));
    }
    assert keys[..|keys|] == keys;
  }

  /** The value `formatComponentDependencies` files for `id` describes `id`'s repository and selector. */
  predicate Describes(made: seq<Obj>, base: nat, p: nat, id: string, selector: Val) {
    base <= p && p + 1 < base + |made| &&
    made[p - base] == DepObject(p, selector) && made[p + 1 - base] == RepoObject(id)
  }

  /** The last round whose key is `k`: the one whose entry the map ends with. */
  function LastKeyIndex(keys: seq<string>, k: string): (r: Option<nat>)
    ensures r.None? ==> forall j | 0 <= j < |keys| :: keys[j] != k
    ensures r.Some? ==> r.value < |keys| && keys[r.value] == k
    ensures r.Some? ==> forall j | r.value < j < |keys| :: keys[j] != k
  {
    if keys == [] then None
    else if keys[|keys| - 1] == k then Some(|keys| - 1)
    else LastKeyIndex(keys[..|keys| - 1], k)
  }

  /**
   * The dependency map has a key exactly for each round's key, and the
   * entry under it is the one the last round with that key made.
   */
  lemma {:induction false} DepsMapGet(base: nat, keys: seq<string>, k: string)
    ensures Get(DepsMap(base, keys), k) == if LastKeyIndex(keys, k).Some? then Some(Ref(base + 2 * LastKeyIndex(keys, k).value)) else None
    decreases |keys|
  {
    if keys != [] {
      var pre := keys[..|keys| - 1];
      DepsMapGet(base, pre, k);
      GetPut(DepsMap(base, pre), keys[|pre|], Ref(base + 2 * |pre|), k);
    }
  }

  /** Round `j` allocated, at `base + 2 * j`, an entry whose repository is `ids[j]`'s and whose selector is `ids[j]`'s value. */
  lemma {:induction false} DepsMadeAt(h: Heap, v: Val, base: nat, ids: seq<string>, j: nat)
    requires j < |ids|
    ensures Describes(DepsMade(h, v, base, ids), base, base + 2 * j, ids[j], OwnValue(h, v, ids[j]))
    decreases |ids|
  {
    var pre := ids[..|ids| - 1];
    if j < |pre| {
      DepsMadeAt(h, v, base, pre, j);
      assert pre[j] == ids[j];
      DescribesExtend(DepsMade(h, v, base, pre), DepsRound(h, v, base, |pre|, ids[|pre|]), base, base + 2 * j, ids[j], OwnValue(h, v, ids[j]));
    }
  }

  lemma DescribesExtend(made: seq<Obj>, extra: seq<Obj>, base: nat, p: nat, id: string, selector: Val)
    requires Describes(made, base, p, id, selector)
    ensures Describes(made + extra, base, p, id, selector)
  {
  }

  /** Some element of the first `n` is the string `k`. */
  predicate HasPath(o: Obj, n: nat, k: string) {
    exists i | 0 <= i < n :: ElementAt(o, i) == Some(Str(k))
  }

  /** When every element is a string, each path becomes a key holding the path made relative. */
  lemma {:induction false} ArrayExportsOfStrings(h: Heap, o: Obj, n: nat, k: string)
    requires forall i | 0 <= i < n :: ElementAt(o, i).Some? ==> ElementAt(o, i).value.Str?
    ensures Get(ArrayExports(h, o, n), k) == if HasPath(o, n, k) then Some(Str(PrefixRelativePath(k))) else None
  {
    if n > 0 {
      ArrayExportsOfStrings(h, o, n - 1, k);
      var acc := ArrayExports(h, o, n - 1);
      match ElementAt(o, n - 1)
      case None =>
        assert HasPath(o, n, k) ==> HasPath(o, n - 1, k);
        assert HasPath(o, n - 1, k) ==> HasPath(o, n, k);
      case Some(e) =>
        var t := e.s;
        assert Text(h, e) == t;
        assert PrefixValue(h, e) == Str(PrefixRelativePath(t));
        GetPut(acc, t, Str(PrefixRelativePath(t)), k);
        if k == t {
          assert HasPath(o, n, k);
        } else {
          assert HasPath(o, n, k) ==> HasPath(o, n - 1, k);
          assert HasPath(o, n - 1, k) ==> HasPath(o, n, k);
        }
    }
  }

  /** For an object or a string, each key of the input maps to its value made relative, and nothing else is a key. */
  lemma {:induction false} KeyExportsEntries(h: Heap, v: Val, keys: seq<string>, k: string)
    ensures Get(KeyExports(h, v, keys), k) == if k in keys then Some(PrefixValue(h, OwnValue(h, v, k))) else None
  {
    if keys != [] {
      var pre := keys[..|keys| - 1];
      KeyExportsEntries(h, v, pre, k);
      GetPut(KeyExports(h, v, pre), keys[|keys| - 1], PrefixValue(h, OwnValue(h, v, keys[|keys| - 1])), k);
      assert keys == pre + [keys[|keys| - 1]];
    }
  }
}
