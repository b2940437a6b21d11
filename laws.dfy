/**
 * What the merge helpers promise, proved about the functions that model them:
 * which raw values each copies, where the copy ends up, what a merge keeps
 * and reports, and which warnings the unused-key pass appends.
 */
module MergeLaws {
  import opened Base
  import opened Props
  import opened Js
  import opened Merge
  import opened Formats
  import opened PackageInsight

  /** `v` is an object of the heap that is not an array. */
  predicate PlainObject(h: Heap, v: Val) {
    v.Ref? && v.loc < |h| && !h[v.loc].isArray
  }

  /** `raw[key]` can be read: `raw` is neither `undefined` nor `null`. */
  predicate Readable(v: Val) {
    v != Undefined && v != Null
  }

  /** `v[keys[0]][keys[1]]...`. */
  function PathRead(h: Heap, v: Val, keys: seq<string>): Val
    decreases |keys|
  {
    if keys == [] then v else PathRead(h, Lookup(h, v, keys[0]), keys[1..])
  }

  /** `string(key)` copies and marks exactly the string values, and throws when `raw` cannot be read. */
  lemma StringGated(d: Desc, s: St, key: string)
    ensures !Readable(d.raw) ==> String(d, s, key) == Err(Stop(s, TypeError))
    ensures Readable(d.raw) && !Lookup(s.heap, d.raw, key).Str? ==> String(d, s, key) == Ok(s)
    ensures Readable(d.raw) && Lookup(s.heap, d.raw, key).Str? && PlainObject(s.heap, d.normalized) ==>
      String(d, s, key).Ok?
      && String(d, s, key).value.copied == s.copied + {key}
      && String(d, s, key).value.warnings == s.warnings
      && Lookup(String(d, s, key).value.heap, d.normalized, key) == Lookup(s.heap, d.raw, key)
  {
    if Readable(d.raw) && Lookup(s.heap, d.raw, key).Str? && PlainObject(s.heap, d.normalized) {
      ReadAfterWrite(s.heap, d.normalized, key, Lookup(s.heap, d.raw, key), key);
    }
  }

  /** `object(key)` copies and marks exactly the truthy values whose `typeof` is `"object"`. */
  lemma ObjectGated(d: Desc, s: St, key: string)
    requires Readable(d.raw)
    ensures var x := Lookup(s.heap, d.raw, key);
      !(Truthy(x) && TypeOf(x) == "object") ==> Object(d, s, key) == Ok(s)
    ensures var x := Lookup(s.heap, d.raw, key);
      Truthy(x) && TypeOf(x) == "object" && PlainObject(s.heap, d.normalized) ==>
        Object(d, s, key).Ok?
        && Object(d, s, key).value.copied == s.copied + {key}
        && Object(d, s, key).value.warnings == s.warnings
        && Lookup(Object(d, s, key).value.heap, d.normalized, key) == x
  {
    var x := Lookup(s.heap, d.raw, key);
    if Truthy(x) && TypeOf(x) == "object" && PlainObject(s.heap, d.normalized) {
      ReadAfterWrite(s.heap, d.normalized, key, x, key);
    }
  }

  /**
   * An empty array or an object without own keys is only marked copied, a
   * non-empty array is shared into `normalized`, and `null`, whose `typeof`
   * is `"object"`, makes `objectToObject` throw.
   */
  lemma EmptyContainersOnlyMark(v: Variant, d: Desc, s: St, key: string, t: Target, f: Option<Formatter>)
    requires Readable(d.raw)
    ensures var x := Lookup(s.heap, d.raw, key);
      IsArray(s.heap, x) && s.heap[x.loc].length == 0 ==>
        Array(d, s, key) == Ok(Mark(s, key)) && ArrayToObject(v, d, s, key, t, f) == Ok(Mark(s, key))
    ensures var x := Lookup(s.heap, d.raw, key);
      IsArray(s.heap, x) && s.heap[x.loc].length > 0 && PlainObject(s.heap, d.normalized) ==>
        Array(d, s, key).Ok?
        && Array(d, s, key).value.copied == s.copied + {key}
        && Lookup(Array(d, s, key).value.heap, d.normalized, key) == x
    ensures var x := Lookup(s.heap, d.raw, key);
      x.Ref? && ForInKeys(s.heap, x) == [] ==> ObjectToObject(v, d, s, key, t, f) == Ok(Mark(s, key))
    ensures Lookup(s.heap, d.raw, key) == Null ==> ObjectToObject(v, d, s, key, t, f) == Err(Stop(s, TypeError))
  {
    var x := Lookup(s.heap, d.raw, key);
    if IsArray(s.heap, x) && s.heap[x.loc].length > 0 && PlainObject(s.heap, d.normalized) {
      ReadAfterWrite(s.heap, d.normalized, key, x, key);
    }
  }

  /**
   * `anyToArray(key, targetKey)` puts `raw[key]` in front of the elements of
   * the array at `normalized[targetKey]`, creates that array when the slot is
   * empty, and throws when the slot holds anything else that is truthy.
   */
  lemma AnyToArrayPrepends(d: Desc, s: St, key: string, target: string)
    requires Readable(d.raw) && PlainObject(s.heap, d.normalized)
    requires Lookup(s.heap, d.raw, key) != Undefined
    ensures var x, cur := Lookup(s.heap, d.raw, key), Lookup(s.heap, d.normalized, target);
      var r := AnyToArray(d, s, key, target, None);
      IsArray(s.heap, cur) && s.heap[cur.loc].length + 1 < ArrayLimit ==>
        r.Ok? && r.value.copied == s.copied + {key} && r.value.warnings == s.warnings
        && Lookup(r.value.heap, d.normalized, target) == cur
        && Elements(r.value.heap[cur.loc]) == [x] + Elements(s.heap[cur.loc])
    ensures var x, cur := Lookup(s.heap, d.raw, key), Lookup(s.heap, d.normalized, target);
      var r := AnyToArray(d, s, key, target, None);
      !Truthy(cur) ==>
        r.Ok? && r.value.copied == s.copied + {key} && r.value.warnings == s.warnings
        && Lookup(r.value.heap, d.normalized, target) == Ref(|s.heap|)
        && Elements(r.value.heap[|s.heap|]) == [x]
    ensures var cur := Lookup(s.heap, d.normalized, target);
      Truthy(cur) && !IsArray(s.heap, cur) ==> AnyToArray(d, s, key, target, None) == Err(Stop(s, TypeError))
  {
    var x, cur := Lookup(s.heap, d.raw, key), Lookup(s.heap, d.normalized, target);
    var n := d.normalized.loc;
    if IsArray(s.heap, cur) && s.heap[cur.loc].length + 1 < ArrayLimit {
      UnshiftElements(s.heap[cur.loc], x);
    } else if !Truthy(cur) {
      var h1 := s.heap + [EmptyArray];
      ReadAfterWrite(h1, d.normalized, target, Ref(|s.heap|), target);
      var h2 := Write(h1, d.normalized, target, Ref(|s.heap|)).value;
      assert h2[|s.heap|] == EmptyArray;
      assert Elements(EmptyArray) == [];
      UnshiftElements(EmptyArray, x);
      var h3 := h2[|s.heap| := Unshift(EmptyArray, x).value];
      assert h3[n] == h2[n];
    }
  }

  /** A path of one, two or three keys read step by step. */
  lemma PathReadSteps(h: Heap, v: Val, keys: seq<string>)
    requires 1 <= |keys| <= 3
    ensures |keys| == 1 ==> PathRead(h, v, keys) == Lookup(h, v, keys[0])
    ensures |keys| == 2 ==> PathRead(h, v, keys) == Lookup(h, Lookup(h, v, keys[0]), keys[1])
    ensures |keys| == 3 ==> PathRead(h, v, keys) == Lookup(h, Lookup(h, Lookup(h, v, keys[0]), keys[1]), keys[2])
  {
    var rest := keys[1..];
    assert PathRead(h, v, keys) == PathRead(h, Lookup(h, v, keys[0]), rest);
    if |keys| >= 2 {
      var last := rest[1..];
      assert PathRead(h, Lookup(h, v, keys[0]), rest) == PathRead(h, Lookup(h, Lookup(h, v, keys[0]), keys[1]), last);
      if |keys| == 3 {
        var y := Lookup(h, Lookup(h, v, keys[0]), keys[1]);
        assert last[0] == keys[2] && last[1..] == [];
        assert PathRead(h, y, last) == PathRead(h, Lookup(h, y, keys[2]), []);
      } else {
        assert last == [];
      }
    } else {
      assert rest == [];
    }
  }

  /** `normalized[k0] = x` reads back. */
  lemma NestOne(d: Desc, s: St, keys: seq<string>, x: Val)
    requires PlainObject(s.heap, d.normalized) && |keys| == 1
    ensures Nest(d, s, keys, x).Ok?
    ensures Lookup(Nest(d, s, keys, x).value.heap, d.normalized, keys[0]) == x
  {
    ReadAfterWrite(s.heap, d.normalized, keys[0], x, keys[0]);
  }

  /** `if (!v[k]) v[k] = {}` on a plain object whose `k` is missing: the new object is at the end of the heap and `v[k]` names it. */
  lemma EnsureFresh(s: St, v: Val, k: string)
    requires PlainObject(s.heap, v) && !Truthy(Lookup(s.heap, v, k))
    ensures Ensure(s, v, k, EmptyObject).Ok?
    ensures var h := Ensure(s, v, k, EmptyObject).value.heap;
      |h| == |s.heap| + 1 && h[|s.heap|] == EmptyObject && Lookup(h, v, k) == Ref(|s.heap|)
      && h == (s.heap + [EmptyObject])[v.loc := h[v.loc]]
  {
    ReadAfterWrite(s.heap + [EmptyObject], v, k, Ref(|s.heap|), k);
  }

  /** A missing `normalized[k0]` is created and `x` reads back at `normalized[k0][k1]`. */
  lemma NestTwoFresh(d: Desc, s: St, keys: seq<string>, x: Val)
    requires PlainObject(s.heap, d.normalized) && |keys| == 2
    requires !Truthy(Lookup(s.heap, d.normalized, keys[0]))
    ensures Nest(d, s, keys, x).Ok?
    ensures var h := Nest(d, s, keys, x).value.heap;
      Lookup(h, d.normalized, keys[0]) == Ref(|s.heap|) && Lookup(h, Ref(|s.heap|), keys[1]) == x
  {
    var m := |s.heap|;
    EnsureFresh(s, d.normalized, keys[0]);
    var s1 := Ensure(s, d.normalized, keys[0], EmptyObject).value;
    ReadAfterWrite(s1.heap, Ref(m), keys[1], x, keys[1]);
  }

  /** The third level over a plain `normalized[k0]` whose `k1` is missing: the object under it is created and `x` reads back. */
  lemma NestDeepFresh(d: Desc, s: St, o: Val, keys: seq<string>, x: Val)
    requires PlainObject(s.heap, d.normalized) && PlainObject(s.heap, o) && o.loc != d.normalized.loc && |keys| == 3
    requires Lookup(s.heap, d.normalized, keys[0]) == o && !Truthy(Lookup(s.heap, o, keys[1]))
    ensures NestDeep(d, s, o, keys, x).Ok?
    ensures var h := NestDeep(d, s, o, keys, x).value.heap;
      Lookup(h, d.normalized, keys[0]) == o
      && Lookup(h, o, keys[1]) == Ref(|s.heap|)
      && Lookup(h, Ref(|s.heap|), keys[2]) == x
  {
    EnsureFresh(s, o, keys[1]);
    var s1 := Ensure(s, o, keys[1], EmptyObject).value;
    assert s1.heap[d.normalized.loc] == s.heap[d.normalized.loc];
    ReadAfterWrite(s1.heap, Ref(|s.heap|), keys[2], x, keys[2]);
  }

  /** A missing `normalized[k0]` and the object under it are created, and `x` reads back three levels down. */
  lemma NestThreeFresh(d: Desc, s: St, keys: seq<string>, x: Val)
    requires PlainObject(s.heap, d.normalized) && |keys| == 3
    requires !Truthy(Lookup(s.heap, d.normalized, keys[0])) && !ObjectProtoName(keys[1])
    ensures Nest(d, s, keys, x).Ok?
    ensures var h := Nest(d, s, keys, x).value.heap;
      Lookup(h, d.normalized, keys[0]) == Ref(|s.heap|)
      && Lookup(h, Ref(|s.heap|), keys[1]) == Ref(|s.heap| + 1)
      && Lookup(h, Ref(|s.heap| + 1), keys[2]) == x
  {
    var m := |s.heap|;
    EnsureFresh(s, d.normalized, keys[0]);
    var s1 := Ensure(s, d.normalized, keys[0], EmptyObject).value;
    assert Lookup(s1.heap, Ref(m), keys[1]) == Undefined;
    assert Nest(d, s, keys, x) == NestDeep(d, s1, Ref(m), keys, x);
    NestDeepFresh(d, s1, Ref(m), keys, x);
  }

  /**
   * package-insight's `anyToObject` over a path whose first object is missing:
   * the objects on the way are created and the value reads back at the end of
   * the path, one, two or three levels down.
   */
  lemma NestReadsBack(d: Desc, s: St, keys: seq<string>, x: Val)
    requires PlainObject(s.heap, d.normalized) && 1 <= |keys| <= 3
    requires |keys| >= 2 ==> !Truthy(Lookup(s.heap, d.normalized, keys[0]))
    requires |keys| == 3 ==> !ObjectProtoName(keys[1])
    ensures Nest(d, s, keys, x).Ok?
    ensures PathRead(Nest(d, s, keys, x).value.heap, d.normalized, keys) == x
  {
    if |keys| == 1 {
      NestOne(d, s, keys, x);
    } else if |keys| == 2 {
      NestTwoFresh(d, s, keys, x);
    } else {
      NestThreeFresh(d, s, keys, x);
    }
    PathReadSteps(Nest(d, s, keys, x).value.heap, d.normalized, keys);
  }

  /**
   * `anyToObject` over a path of two, in either normaliser: `normalized[k0]`
   * is created when missing, or reused when it is another plain object, and
   * `raw[key]` reads back at `normalized[k0][k1]`; the key is marked copied.
   */
  lemma AnyToObjectTwo(v: Variant, d: Desc, s: St, key: string, t: Target)
    requires Readable(d.raw) && PlainObject(s.heap, d.normalized)
    requires Lookup(s.heap, d.raw, key) != Undefined
    requires |InsightKeys(key, t)| == 2 && |WrapKeys(key, t)| == 2
    requires var keys := if v == Insight then InsightKeys(key, t) else WrapKeys(key, t);
      var cur := Lookup(s.heap, d.normalized, keys[0]);
      !Truthy(cur) || (PlainObject(s.heap, cur) && cur.loc != d.normalized.loc)
    ensures var keys := if v == Insight then InsightKeys(key, t) else WrapKeys(key, t);
      var r := AnyToObject(v, d, s, key, t, None);
      r.Ok? && r.value.copied == s.copied + {key} && r.value.warnings == s.warnings
      && PathRead(r.value.heap, d.normalized, keys) == Lookup(s.heap, d.raw, key)
  {
    var keys := if v == Insight then InsightKeys(key, t) else WrapKeys(key, t);
    var x, cur := Lookup(s.heap, d.raw, key), Lookup(s.heap, d.normalized, keys[0]);
    if Truthy(cur) {
      ReadAfterWrite(s.heap, cur, keys[1], x, keys[1]);
      var h := Write(s.heap, cur, keys[1], x).value;
      assert h[d.normalized.loc] == s.heap[d.normalized.loc];
      assert Lookup(h, Lookup(h, d.normalized, keys[0]), keys[1]) == x;
      assert AnyToObject(v, d, s, key, t, None) == Ok(Mark(s.(heap := h), key));
      PathReadSteps(h, d.normalized, keys);
    } else {
      NestReadsBack(d, s, keys, x);
    }
  }

  /** Over a path of two, packagewrap's two-level write and package-insight's are the same. */
  lemma NestTwoAgrees(d: Desc, s: St, keys: seq<string>, x: Val)
    requires |keys| == 2
    ensures NestTwo(d, s, keys, x) == Nest(d, s, keys, x)
  {
  }

  /**
   * One name of `mergeObjectTo`: a defined target value that differs from the
   * source's is kept and reported once; otherwise the source's value is
   * assigned and nothing is reported.
   */
  lemma MergeNameEffect(d: Desc, s: St, key: string, keys: seq<string>, target: Val, name: string)
    requires Readable(d.raw) && Readable(Lookup(s.heap, d.raw, key)) && PlainObject(s.heap, target)
    ensures var current, x := Lookup(s.heap, target, name), Lookup(s.heap, Lookup(s.heap, d.raw, key), name);
      current != Undefined && current != x ==>
        MergeName(d, s, key, keys, None, target, name) == Ok(Warn(s, MergeWarning(keys, key, name)))
    ensures var current, x := Lookup(s.heap, target, name), Lookup(s.heap, Lookup(s.heap, d.raw, key), name);
      var r := MergeName(d, s, key, keys, None, target, name);
      current == Undefined || current == x ==>
        r.Ok? && r.value.warnings == s.warnings && r.value.copied == s.copied
        && Lookup(r.value.heap, target, name) == x
  {
    var current, x := Lookup(s.heap, target, name), Lookup(s.heap, Lookup(s.heap, d.raw, key), name);
    if current == Undefined || current == x {
      ReadAfterWrite(s.heap, target, name, x, name);
    }
  }

  /** One name of the merge never marks a key and reports at most once. */
  lemma MergeNameReports(d: Desc, s: St, key: string, keys: seq<string>, f: Option<Formatter>, target: Val, name: string)
    ensures var r := MergeName(d, s, key, keys, f, target, name);
      r.Ok? ==>
        r.value.copied == s.copied
        && (r.value.warnings == s.warnings || r.value.warnings == s.warnings + [("normalize", MergeWarning(keys, key, name))])
  {
  }

  /** The merge loop never marks a key, and each round reports at most once, after what was reported before. */
  lemma {:induction false} MergeFoldReports(d: Desc, s: St, key: string, keys: seq<string>, f: Option<Formatter>, target: Val, names: seq<string>)
    ensures var r := MergeFold(d, s, key, keys, f, target, names);
      r.Ok? ==>
        r.value.copied == s.copied
        && |s.warnings| <= |r.value.warnings| <= |s.warnings| + |names|
        && r.value.warnings[..|s.warnings|] == s.warnings
  {
    if names != [] {
      var pre := names[..|names| - 1];
      MergeFoldReports(d, s, key, keys, f, target, pre);
      var s1 := MergeFold(d, s, key, keys, f, target, pre);
      if s1.Ok? {
        MergeNameReports(d, s1.value, key, keys, f, target, names[|names| - 1]);
        var r := MergeName(d, s1.value, key, keys, f, target, names[|names| - 1]);
        if r.Ok? {
          assert r.value.warnings[..|s1.value.warnings|] == s1.value.warnings;
          assert r.value.warnings[..|s.warnings|] == s1.value.warnings[..|s.warnings|];
        }
      }
    }
  }

  /** `mergeObjectTo` ignores anything but a truthy object, and otherwise marks the key and only adds warnings. */
  lemma MergeObjectToMarks(d: Desc, s: St, key: string, t: Target, f: Option<Formatter>)
    requires Readable(d.raw)
    ensures var x := Lookup(s.heap, d.raw, key);
      !(Truthy(x) && TypeOf(x) == "object") ==> MergeObjectTo(d, s, key, t, f) == Ok(s)
    ensures var x, r := Lookup(s.heap, d.raw, key), MergeObjectTo(d, s, key, t, f);
      r.Ok? && Truthy(x) && TypeOf(x) == "object" ==>
        r.value.copied == s.copied + {key} && |s.warnings| <= |r.value.warnings|
        && r.value.warnings[..|s.warnings|] == s.warnings
  {
    var x := Lookup(s.heap, d.raw, key);
    if Truthy(x) && TypeOf(x) == "object" {
      var keys := MergeKeys(t);
      var a := MergeTarget(d, s, keys);
      if a.Ok? {
        var source := Lookup(a.value.0.heap, d.raw, key);
        MergeFoldReports(d, a.value.0, key, keys, f, a.value.1, ForInKeys(a.value.0.heap, source));
      }
    }
  }

  /** The parts `f` gives for each of the keys, joined in the keys' order. */
  function Gather<T>(f: string -> seq<T>, keys: seq<string>): seq<T> {
    if keys == [] then [] else f(keys[0]) + Gather(f, keys[1..])
  }

  lemma {:induction false} GatherAppend<T>(f: string -> seq<T>, a: seq<string>, b: seq<string>)
    ensures Gather(f, a + b) == Gather(f, a) + Gather(f, b)
  {
    if a == [] {
      assert a + b == b;
    } else {
      assert (a + b)[0] == a[0] && (a + b)[1..] == a[1..] + b;
      GatherAppend(f, a[1..], b);
    }
  }

  /** The warning one key is owed: none when it counts as copied. */
  function Owed(s: St, k: string): seq<Warning> {
    if Copied(s, k) then [] else [IgnoredWarning(k)]
  }

  /** The warnings the unused-key pass owes: one per key not marked copied, in the keys' order. */
  function Ignored(s: St, keys: seq<string>): seq<Warning> {
    Gather(k => Owed(s, k), keys)
  }

  /** The `forEach` over the raw keys appends exactly the owed warnings and changes nothing else. */
  lemma {:induction false} UnusedFoldWarns(s: St, keys: seq<string>)
    ensures UnusedFold(s, keys) == s.(warnings := s.warnings + Ignored(s, keys))
  {
    if keys != [] {
      var pre, k := keys[..|keys| - 1], keys[|keys| - 1];
      UnusedFoldWarns(s, pre);
      var s1 := UnusedFold(s, pre);
      assert Copied(s1, k) == Copied(s, k) by { assert s1.copied == s.copied; }
      assert UnusedFold(s, keys) == s1.(warnings := s1.warnings + Owed(s, k));
      GatherAppend(k => Owed(s, k), pre, [k]);
      assert pre + [k] == keys;
      assert [k][1..] == [];
      assert Ignored(s, keys) == Ignored(s, pre) + Owed(s, k);
    }
  }

  /** Different keys are reported by different warnings. */
  lemma IgnoredWarningInjective(k: string, k': string)
    requires IgnoredWarning(k) == IgnoredWarning(k')
    ensures k == k'
  {
    var m, m' := IgnoredWarning(k).1, IgnoredWarning(k').1;
    assert |k| == |k'| by { assert |m| == |m'|; }
    assert k == m[10..10 + |k|];
    assert k' == m'[10..10 + |k'|];
  }

  /** A key is reported exactly when it is one of the keys and is not marked copied. */
  lemma {:induction false} IgnoredNames(s: St, keys: seq<string>, k: string)
    ensures IgnoredWarning(k) in Ignored(s, keys) <==> k in keys && !Copied(s, k)
  {
    if keys != [] {
      assert Ignored(s, keys) == Owed(s, keys[0]) + Ignored(s, keys[1..]);
      IgnoredNames(s, keys[1..], k);
      if IgnoredWarning(k) == IgnoredWarning(keys[0]) {
        IgnoredWarningInjective(k, keys[0]);
      }
      assert k in keys <==> k == keys[0] || k in keys[1..];
    }
  }

  /** The unused-key pass: `Object.keys(raw)` throws on `null` and `undefined`, and otherwise each uncopied key is reported once, in order. */
  lemma UnusedWarns(d: Desc, s: St)
    ensures !Readable(d.raw) ==> Unused(d, s) == Err(Stop(s, TypeError))
    ensures Readable(d.raw) ==> Unused(d, s) == Ok(s.(warnings := s.warnings + Ignored(s, ForInKeys(s.heap, d.raw))))
  {
    if Readable(d.raw) {
      UnusedFoldWarns(s, ForInKeys(s.heap, d.raw));
    }
  }

  /** Some element among the first `n` is the string `k`. */
  predicate HasName(o: Obj, n: nat, k: string) {
    exists i | 0 <= i < n :: ElementAt(o, i) == Some(Str(k))
  }

  /** Over a list of strings, the bundled object maps each of them, and nothing else, to `false`. */
  lemma BundledNamesOfStrings(h: Heap, o: Obj, n: nat, k: string)
    requires forall i | 0 <= i < n :: ElementAt(o, i).Some? ==> ElementAt(o, i).value.Str?
    ensures Get(BundledNames(h, o, n), k) == if HasName(o, n, k) then Some(Bool(false)) else None
  {
    BundledNamesEntries(h, o, n, k);
    if Names(h, o, n, k) {
      var i :| 0 <= i < n && ElementAt(o, i).Some? && Text(h, ElementAt(o, i).value) == k;
      assert ElementAt(o, i) == Some(Str(k));
    }
    if HasName(o, n, k) {
      var i :| 0 <= i < n && ElementAt(o, i) == Some(Str(k));
      assert Text(h, ElementAt(o, i).value) == k;
    }
  }

  /**
   * A bundled list of names in a plain `dependencies` object becomes a new
   * object there that maps each name, and nothing else, to `false`.
   */
  lemma BundledMapsNames(d: Desc, s: St, k: string)
    requires PlainObject(s.heap, d.normalized)
    requires PlainObject(s.heap, Lookup(s.heap, d.normalized, "dependencies"))
    requires IsArray(s.heap, Lookup(s.heap, Lookup(s.heap, d.normalized, "dependencies"), "bundled"))
    requires var list := s.heap[Lookup(s.heap, Lookup(s.heap, d.normalized, "dependencies"), "bundled").loc];
      forall i | 0 <= i < list.length :: ElementAt(list, i).Some? ==> ElementAt(list, i).value.Str?
    ensures var deps := Lookup(s.heap, d.normalized, "dependencies");
      var list := s.heap[Lookup(s.heap, deps, "bundled").loc];
      var r := Bundled(d, s);
      r.Ok? && r.value.copied == s.copied && r.value.warnings == s.warnings
      && Lookup(r.value.heap, deps, "bundled") == Ref(|s.heap|)
      && Get(r.value.heap[|s.heap|].props, k) == if HasName(list, list.length, k) then Some(Bool(false)) else None
  {
    var deps := Lookup(s.heap, d.normalized, "dependencies");
    var bundled := Lookup(s.heap, deps, "bundled");
    var h1 := s.heap + [EmptyObject];
    ReadAfterWrite(h1, deps, "bundled", Ref(|s.heap|), "bundled");
    var h2 := Write(h1, deps, "bundled", Ref(|s.heap|)).value;
    assert h2[bundled.loc] == s.heap[bundled.loc];
    var list := s.heap[bundled.loc];
    BundledNamesOfStrings(h2, list, list.length, k);
  }

  /** Writing `v[k] = x` on a plain object changes that one key of that one object. */
  lemma WritePlain(h: Heap, v: Val, k: string, x: Val)
    requires PlainObject(h, v)
    ensures Write(h, v, k, x).Ok?
    ensures var h' := Write(h, v, k, x).value;
      && |h'| == |h| && !h'[v.loc].isArray
      && (forall l | 0 <= l < |h| && l != v.loc :: h'[l] == h[l])
      && (forall n :: Lookup(h', v, n) == if n == k then x else Lookup(h, v, n))
  {
    var h' := Write(h, v, k, x).value;
    forall n ensures Lookup(h', v, n) == if n == k then x else Lookup(h, v, n) {
      GetPut(h[v.loc].props, k, x, n);
    }
  }

  /** A read through a value whose object a change of the heap left alone. */
  lemma LookupFrame(h: Heap, h': Heap, w: Val, n: string)
    requires |h'| == |h| && (w.Ref? && w.loc < |h| ==> h'[w.loc] == h[w.loc])
    ensures Lookup(h', w, n) == Lookup(h, w, n)
  {
  }

  /**
   * The object `mergeObjectTo` merges into is the one found at the end of
   * the key path once the path is in place: a missing level is a new empty
   * object, and a level already there is left as it is.
   */
  lemma MergeTargetLocates(d: Desc, s: St, keys: seq<string>)
    requires PlainObject(s.heap, d.normalized) && 1 <= |keys| <= 2
    requires var cur := Lookup(s.heap, d.normalized, keys[0]);
      |keys| == 2 ==> !Truthy(cur) || (PlainObject(s.heap, cur) && cur.loc != d.normalized.loc)
    ensures MergeTarget(d, s, keys).Ok?
    ensures var a := MergeTarget(d, s, keys).value;
      a.1 == PathRead(a.0.heap, d.normalized, keys)
    ensures var cur, a := Lookup(s.heap, d.normalized, keys[0]), MergeTarget(d, s, keys).value;
      |keys| == 1 ==>
        if Truthy(cur) then a == (s, cur)
        else |a.0.heap| == |s.heap| + 1 && a.1 == Ref(|s.heap|) && a.0.heap[|s.heap|] == EmptyObject
    ensures var cur, a := Lookup(s.heap, d.normalized, keys[0]), MergeTarget(d, s, keys).value;
      |keys| == 2 && !Truthy(cur) && !ObjectProtoName(keys[1]) ==>
        && |a.0.heap| == |s.heap| + 2 && Lookup(a.0.heap, d.normalized, keys[0]) == Ref(|s.heap|)
        && a.1 == Ref(|s.heap| + 1) && a.0.heap[|s.heap| + 1] == EmptyObject
    ensures var cur, a := Lookup(s.heap, d.normalized, keys[0]), MergeTarget(d, s, keys).value;
      |keys| == 2 && Truthy(cur) ==>
        if Truthy(Lookup(s.heap, cur, keys[1])) then a == (s, Lookup(s.heap, cur, keys[1]))
        else |a.0.heap| == |s.heap| + 1 && a.1 == Ref(|s.heap|) && a.0.heap[|s.heap|] == EmptyObject
  {
    var k0 := keys[0];
    assert Elem(keys, 0) == k0;
    var s1, mid := EnsureLevel(s, d.normalized, k0);
    var cur := Lookup(s.heap, d.normalized, k0);
    if |keys| == 1 {
      assert MergeTarget(d, s, keys) == Ok((s1, mid));
      PathReadSteps(s1.heap, d.normalized, keys);
    } else {
      var k1 := keys[1];
      var s2, target := EnsureLevel(s1, mid, k1);
      assert MergeTarget(d, s, keys) == Ok((s2, target));
      assert Lookup(s2.heap, d.normalized, k0) == mid by {
        if !Truthy(Lookup(s1.heap, mid, k1)) {
          assert s2.heap[d.normalized.loc] == s1.heap[d.normalized.loc];
        }
      }
      PathReadSteps(s2.heap, d.normalized, keys);
      if !Truthy(cur) && !ObjectProtoName(k1) {
        assert !Truthy(Lookup(s1.heap, mid, k1));
      }
      if Truthy(cur) {
        assert Lookup(s1.heap, mid, k1) == Lookup(s.heap, cur, k1);
      }
    }
  }

  /**
   * One level of the path: `if (!v[k]) v[k] = {}` then `v[k]`, on a plain
   * object. The level is the value already there when truthy, and a new
   * empty object otherwise.
   */
  lemma EnsureLevel(s: St, v: Val, k: string) returns (s': St, w: Val)
    requires PlainObject(s.heap, v)
    ensures Ensure(s, v, k, EmptyObject) == Ok(s') && At(s', v, k) == Ok(w)
    ensures Truthy(Lookup(s.heap, v, k)) ==> s' == s && w == Lookup(s.heap, v, k)
    ensures !Truthy(Lookup(s.heap, v, k)) ==>
      && |s'.heap| == |s.heap| + 1 && w == Ref(|s.heap|) && s'.heap[|s.heap|] == EmptyObject
      && s'.heap == (s.heap + [EmptyObject])[v.loc := s'.heap[v.loc]]
      && s'.warnings == s.warnings && s'.copied == s.copied
    ensures PlainObject(s'.heap, v) && (w.Ref? && w.loc < |s.heap| ==> s'.heap[w.loc] == s.heap[w.loc] || w.loc == v.loc)
  {
    if !Truthy(Lookup(s.heap, v, k)) {
      EnsureFresh(s, v, k);
    }
    s' := Ensure(s, v, k, EmptyObject).value;
    w := Lookup(s'.heap, v, k);
  }

  /** A defined value at the target that differs from the source's: `mergeObjectTo` keeps it and reports it. */
  predicate Conflicts(current: Val, x: Val) {
    current != Undefined && current != x
  }

  /** What `target[n]` holds after the round for `n`, from the values before it. */
  function Merged(h: Heap, target: Val, source: Val, n: string): Val {
    if Conflicts(Lookup(h, target, n), Lookup(h, source, n)) then Lookup(h, target, n) else Lookup(h, source, n)
  }

  /** The warning the round for `n` adds, if any. */
  function MergeReport(h: Heap, target: Val, source: Val, key: string, keys: seq<string>, n: string): seq<Warning> {
    if Conflicts(Lookup(h, target, n), Lookup(h, source, n)) then [("normalize", MergeWarning(keys, key, n))] else []
  }

  /** The warnings of all the rounds, in the loop's order. */
  function MergeReports(h: Heap, target: Val, source: Val, key: string, keys: seq<string>, names: seq<string>): seq<Warning> {
    Gather(n => MergeReport(h, target, source, key, keys, n), names)
  }

  predicate Distinct(names: seq<string>) {
    forall i, j | 0 <= i < j < |names| :: names[i] != names[j]
  }

  /**
   * The heap `h'` after the rounds for `names`, against the heap `h` before
   * them: `target[n]` holds the merged value for each of the names and its
   * old value for every other key, and no other object changed.
   */
  ghost predicate FoldedInto(h: Heap, h': Heap, target: Val, source: Val, names: seq<string>)
    requires PlainObject(h, target)
  {
    && |h'| == |h| && !h'[target.loc].isArray
    && (forall l | 0 <= l < |h| && l != target.loc :: h'[l] == h[l])
    && (forall n :: Lookup(h', target, n) == if n in names then Merged(h, target, source, n) else Lookup(h, target, n))
  }

  /** One more round of the loop, for a name not merged yet, keeps `FoldedInto` and adds its own report. */
  lemma MergeRoundEffect(d: Desc, s: St, s1: St, key: string, keys: seq<string>, target: Val, pre: seq<string>, last: string)
    requires PlainObject(s.heap, target)
    requires Readable(d.raw) && !(d.raw.Ref? && d.raw.loc == target.loc)
    requires var source := Lookup(s.heap, d.raw, key);
      && Readable(source) && !(source.Ref? && source.loc == target.loc)
      && FoldedInto(s.heap, s1.heap, target, source, pre)
    requires last !in pre
    ensures var source, r := Lookup(s.heap, d.raw, key), MergeName(d, s1, key, keys, None, target, last);
      && r.Ok? && r.value.copied == s1.copied
      && r.value.warnings == s1.warnings + MergeReport(s.heap, target, source, key, keys, last)
      && FoldedInto(s.heap, r.value.heap, target, source, pre + [last])
  {
    var source := Lookup(s.heap, d.raw, key);
    LookupFrame(s.heap, s1.heap, d.raw, key);
    LookupFrame(s.heap, s1.heap, source, last);
    var current, x := Lookup(s1.heap, target, last), Lookup(s1.heap, source, last);
    assert current == Lookup(s.heap, target, last);
    if !Conflicts(current, x) {
      WritePlain(s1.heap, target, last, x);
      var h2 := Write(s1.heap, target, last, x).value;
      assert MergeName(d, s1, key, keys, None, target, last) == Ok(s1.(heap := h2));
    }
  }

  /**
   * The whole merge loop, without a formatter, into a plain object that is
   * neither `raw` nor `raw[key]`: each name listed ends holding the source's
   * value unless the target already held a different defined one, which is
   * kept; exactly the names whose values clash are reported, in the loop's
   * order; and no other key or object changes.
   */
  lemma {:induction false} MergeFoldEffect(d: Desc, s: St, key: string, keys: seq<string>, target: Val, names: seq<string>)
    requires PlainObject(s.heap, target)
    requires Readable(d.raw) && !(d.raw.Ref? && d.raw.loc == target.loc)
    requires var source := Lookup(s.heap, d.raw, key);
      Readable(source) && !(source.Ref? && source.loc == target.loc)
    requires Distinct(names)
    ensures var source, r := Lookup(s.heap, d.raw, key), MergeFold(d, s, key, keys, None, target, names);
      && r.Ok? && r.value.copied == s.copied
      && r.value.warnings == s.warnings + MergeReports(s.heap, target, source, key, keys, names)
      && FoldedInto(s.heap, r.value.heap, target, source, names)
    decreases |names|
  {
    var source := Lookup(s.heap, d.raw, key);
    var report := n => MergeReport(s.heap, target, source, key, keys, n);
    if names == [] {
      assert MergeReports(s.heap, target, source, key, keys, names) == [];
    } else {
      var pre, last := names[..|names| - 1], names[|names| - 1];
      assert names == pre + [last];
      MergeFoldEffect(d, s, key, keys, target, pre);
      var s1 := MergeFold(d, s, key, keys, None, target, pre).value;
      assert last !in pre;
      MergeRoundEffect(d, s, s1, key, keys, target, pre, last);
      GatherAppend(report, pre, [last]);
      assert Gather(report, [last]) == report(last);
    }
  }

  /**
   * `mergeObjectTo` on a truthy object, without a formatter, where the
   * object it merges into is plain and is neither `raw` nor `raw[key]` (as
   * read once the path is in place): the key is marked, every for-in name
   * of `raw[key]` is merged as `MergeFoldEffect` says, and the warnings are
   * exactly those of the clashing names.
   */
  lemma MergeObjectToEffect(d: Desc, s: St, key: string, t: Target)
    requires Readable(d.raw)
    requires var x := Lookup(s.heap, d.raw, key); Truthy(x) && TypeOf(x) == "object"
    requires var a := MergeTarget(d, s, MergeKeys(t));
      && a.Ok? && PlainObject(a.value.0.heap, a.value.1) && !(d.raw.Ref? && d.raw.loc == a.value.1.loc)
      && var source := Lookup(a.value.0.heap, d.raw, key);
      && Readable(source) && !(source.Ref? && source.loc == a.value.1.loc)
      && Distinct(ForInKeys(a.value.0.heap, source))
    ensures var a := MergeTarget(d, s, MergeKeys(t)).value;
      var h0, target := a.0.heap, a.1;
      var source := Lookup(h0, d.raw, key);
      var names, r := ForInKeys(h0, source), MergeObjectTo(d, s, key, t, None);
      && r.Ok? && r.value.copied == s.copied + {key}
      && r.value.warnings == s.warnings + MergeReports(h0, target, source, key, MergeKeys(t), names)
      && FoldedInto(h0, r.value.heap, target, source, names)
  {
    var a := MergeTarget(d, s, MergeKeys(t)).value;
    var source := Lookup(a.0.heap, d.raw, key);
    MergeFoldEffect(d, a.0, key, MergeKeys(t), a.1, ForInKeys(a.0.heap, source));
  }
}
