/**
 * The merge helpers both descriptor normalisers share (`makeMergeHelpers` in
 * package-insight, the local functions of `normalize` in packagewrap), as
 * functions from the state before a call to the state after it.
 *
 * The state is the heap, the descriptor's `warnings` and the set of raw keys
 * marked in `copied`. A helper that throws leaves behind whatever it had
 * already written: its outcome is the state at the throw and the error.
 */
module Merge {
  import opened Base
  import opened Props
  import opened Js

  /** `[kind, message]` as pushed onto `descriptor.warnings`. */
  type Warning = (string, string)

  datatype St = St(heap: Heap, warnings: seq<Warning>, copied: set<string>)

  /** Where a throw left the state, and what was thrown. */
  datatype Stop = Stop(at: St, error: Thrown)

  type Outcome = Result<St, Stop>

  /** `descriptor.raw` and `descriptor.normalized`. */
  datatype Desc = Desc(raw: Val, normalized: Val)

  /** Whose `anyToObject`: package-insight's drops a leading `""` key and nests up to three deep; packagewrap's nests two deep. */
  datatype Variant = Insight | Wrap

  /** A `targetKey` argument: a property name or an array of them. */
  datatype Target = Name(name: string) | Path(keys: seq<string>)

  /** `copied[k]` is truthy: the key was marked, or it names an `Object.prototype` member. */
  predicate Copied(s: St, k: string) {
    k in s.copied || ObjectProtoName(k)
  }

  /** `copied[key] = true`. */
  function Mark(s: St, key: string): (r: St)
    ensures r.heap == s.heap && r.warnings == s.warnings && r.copied == s.copied + {key}
  {
    s.(copied := s.copied + {key})
  }

  function Warn(s: St, message: string): (r: St)
    ensures r.heap == s.heap && r.copied == s.copied && r.warnings == s.warnings + [("normalize", message)]
  {
    s.(warnings := s.warnings + [("normalize", message)])
  }

  /** A thrown error stops at `s`. */
  function Lift<T>(s: St, r: Result<T, Thrown>): (o: Result<T, Stop>)
    ensures r.Ok? ==> o == Ok(r.value)
    ensures r.Err? ==> o == Err(Stop(s, r.error))
  {
    match r
    case Ok(x) => Ok(x)
    case Err(e) => Err(Stop(s, e))
  }

  /** `v[k]`. */
  function At(s: St, v: Val, k: string): Result<Val, Stop> {
    Lift(s, Read(s.heap, v, k))
  }

  /** `v[k] = x`. */
  function Set(s: St, v: Val, k: string, x: Val): (r: Outcome)
    ensures r.Ok? ==> r.value.warnings == s.warnings && r.value.copied == s.copied
  {
    var h :- Lift(s, Write(s.heap, v, k, x));
    Ok(s.(heap := h))
  }

  /** A new empty object or array. */
  function New(s: St, o: Obj): (r: (St, Val))
    ensures r.0 == s.(heap := s.heap + [o]) && r.1 == Ref(|s.heap|)
  {
    (s.(heap := s.heap + [o]), Ref(|s.heap|))
  }

  /** `if (!v[k]) v[k] = {}` (or `[]`). */
  function Ensure(s: St, v: Val, k: string, o: Obj): (r: Outcome)
    ensures r.Ok? ==> r.value.warnings == s.warnings && r.value.copied == s.copied
  {
    var x :- At(s, v, k);
    if Truthy(x) then Ok(s)
    else
      var n := New(s, o);
      Set(n.0, v, k, n.1)
  }

  /** A formatter: from the heap and a value to the heap after it and the value it returns, or what it threw. */
  type Formatter = (Heap, Val) -> Result<(Heap, Val), Thrown>

  /** `if (typeof formatter === "function") value = formatter(value)`. */
  function Format(s: St, f: Option<Formatter>, v: Val): (r: Result<(St, Val), Stop>)
    ensures r.Ok? ==> r.value.0.warnings == s.warnings && r.value.0.copied == s.copied
    ensures f.None? ==> r == Ok((s, v))
  {
    match f
    case None => Ok((s, v))
    case Some(g) =>
      var a :- Lift(s, g(s.heap, v));
      Ok((s.(heap := a.0), a.1))
  }

  /** `targetKey[i]`, which is `undefined` past the end and then names the key `"undefined"`. */
  function Elem(keys: seq<string>, i: nat): string {
    if i < |keys| then keys[i] else "undefined"
  }

  /** `keys.join(".")`. */
  function DotJoin(keys: seq<string>): string {
    if keys == [] then ""
    else if |keys| == 1 then keys[0]
    else DotJoin(keys[..|keys| - 1]) + "." + keys[|keys| - 1]
  }

  /** `string(key)`: a string value is shared into `normalized` under the same key. */
  function String(d: Desc, s: St, key: string): Outcome {
    var x :- At(s, d.raw, key);
    if x.Str? then
      var s1 :- Set(s, d.normalized, key, x);
      Ok(Mark(s1, key))
    else Ok(s)
  }

  /** `stringToArray(key, targetKey, formatter)`. */
  function StringToArray(d: Desc, s: St, key: string, target: string, f: Option<Formatter>): Outcome {
    var x :- At(s, d.raw, key);
    if x.Str? then AnyToArray(d, s, key, target, f) else Ok(s)
  }

  /** `booleanToObject(key, targetKey)`. */
  function BooleanToObject(v: Variant, d: Desc, s: St, key: string, t: Target): Outcome {
    var x :- At(s, d.raw, key);
    if x.Bool? then AnyToObject(v, d, s, key, t, None) else Ok(s)
  }

  /** `stringToObject(key, targetKey, formatter)`. */
  function StringToObject(v: Variant, d: Desc, s: St, key: string, t: Target, f: Option<Formatter>): Outcome {
    var x :- At(s, d.raw, key);
    if x.Str? then AnyToObject(v, d, s, key, t, f) else Ok(s)
  }

  /**
   * `objectToObject(key, targetKey, formatter)`: any value whose `typeof` is
   * `"object"` is marked copied, and copied only when it has an own key;
   * `Object.keys(null)` throws.
   */
  function ObjectToObject(v: Variant, d: Desc, s: St, key: string, t: Target, f: Option<Formatter>): Outcome {
    var x :- At(s, d.raw, key);
    if TypeOf(x) != "object" then Ok(s)
    else
      var keys :- Lift(s, ObjectKeys(s.heap, x));
      var s1 :- if |keys| > 0 then AnyToObject(v, d, s, key, t, f) else Ok(s);
      Ok(Mark(s1, key))
  }

  /** `arrayToObject(key, targetKey, formatter)`: an array is marked copied, and copied when it is not empty. */
  function ArrayToObject(v: Variant, d: Desc, s: St, key: string, t: Target, f: Option<Formatter>): Outcome {
    var x :- At(s, d.raw, key);
    if !(Truthy(x) && IsArray(s.heap, x)) then Ok(s)
    else
      var s1 :- if s.heap[x.loc].length > 0 then AnyToObject(v, d, s, key, t, f) else Ok(s);
      Ok(Mark(s1, key))
  }

  /** `array(key)`: an array is marked copied, and shared into `normalized` when it is not empty. */
  function Array(d: Desc, s: St, key: string): Outcome {
    var x :- At(s, d.raw, key);
    if !(Truthy(x) && IsArray(s.heap, x)) then Ok(s)
    else
      var s1 :- if s.heap[x.loc].length > 0 then Set(s, d.normalized, key, x) else Ok(s);
      Ok(Mark(s1, key))
  }

  /** `object(key)`: a truthy value whose `typeof` is `"object"` is shared into `normalized`. */
  function Object(d: Desc, s: St, key: string): Outcome {
    var x :- At(s, d.raw, key);
    if Truthy(x) && TypeOf(x) == "object" then
      var s1 :- Set(s, d.normalized, key, x);
      Ok(Mark(s1, key))
    else Ok(s)
  }

  /** The key path `mergeObjectTo` merges into: a name is a path of one. */
  function MergeKeys(t: Target): seq<string> {
    match t
    case Name(n) => [n]
    case Path(keys) => keys
  }

  /** The object `mergeObjectTo` merges into, created on the way when missing; only a path of two goes a level deeper. */
  function MergeTarget(d: Desc, s: St, keys: seq<string>): (r: Result<(St, Val), Stop>)
    ensures r.Ok? ==> r.value.0.warnings == s.warnings && r.value.0.copied == s.copied
  {
    var s1 :- Ensure(s, d.normalized, Elem(keys, 0), EmptyObject);
    var target :- At(s1, d.normalized, Elem(keys, 0));
    if |keys| == 2 then
      var s2 :- Ensure(s1, target, keys[1], EmptyObject);
      var target2 :- At(s2, target, keys[1]);
      Ok((s2, target2))
    else Ok((s1, target))
  }

  function MergeWarning(keys: seq<string>, key: string, name: string): string {
    "Found existing value at '" + DotJoin(keys) + "." + name + "' while trying to merge from '" + key + "." + name + "'"
  }

  /**
   * One round of the `for (name in raw[key])` loop: a defined value that
   * differs is kept and reported, anything else is (formatted and) assigned.
   */
  function MergeName(d: Desc, s: St, key: string, keys: seq<string>, f: Option<Formatter>, target: Val, name: string): Outcome {
    var current :- At(s, target, name);
    var source :- At(s, d.raw, key);
    var x :- At(s, source, name);
    if current != Undefined && current != x then Ok(Warn(s, MergeWarning(keys, key, name)))
    else
      var a :- Format(s, f, x);
      Set(a.0, target, name, a.1)
  }

  /** The first `|names|` rounds of the merge loop. */
  function MergeFold(d: Desc, s: St, key: string, keys: seq<string>, f: Option<Formatter>, target: Val, names: seq<string>): Outcome {
    if names == [] then Ok(s)
    else
      var s1 :- MergeFold(d, s, key, keys, f, target, names[..|names| - 1]);
      MergeName(d, s1, key, keys, f, target, names[|names| - 1])
  }

  /** `mergeObjectTo(key, targetKey, formatter)`. */
  function MergeObjectTo(d: Desc, s: St, key: string, t: Target, f: Option<Formatter>): Outcome {
    var x :- At(s, d.raw, key);
    if !(Truthy(x) && TypeOf(x) == "object") then Ok(s)
    else
      var keys := MergeKeys(t);
      var a :- MergeTarget(d, s, keys);
      var s1 :- MergeInto(d, a.0, key, keys, f, a.1);
      Ok(Mark(s1, key))
  }

  /** The `for (name in raw[key])` loop of `mergeObjectTo`, over the keys of `raw[key]` read afresh. */
  function MergeInto(d: Desc, s: St, key: string, keys: seq<string>, f: Option<Formatter>, target: Val): Outcome {
    var source :- At(s, d.raw, key);
    MergeFold(d, s, key, keys, f, target, ForInKeys(s.heap, source))
  }

  /** `arr.unshift(x)`: only an array has `unshift`. */
  function Prepend(s: St, arr: Val, x: Val): (r: Outcome)
    ensures r.Ok? ==> r.value.warnings == s.warnings && r.value.copied == s.copied
  {
    if IsArray(s.heap, arr) then
      var o :- Lift(s, Unshift(s.heap[arr.loc], x));
      Ok(s.(heap := s.heap[arr.loc := o]))
    else Err(Stop(s, TypeError))
  }

  /** `anyToArray(key, targetKey, formatter)`: a defined value goes in front of the array at `normalized[targetKey]`. */
  function AnyToArray(d: Desc, s: St, key: string, target: string, f: Option<Formatter>): Outcome {
    var x :- At(s, d.raw, key);
    if x == Undefined then Ok(s)
    else
      var s1 :- Ensure(s, d.normalized, target, EmptyArray);
      var a :- Format(s1, f, x);
      var arr :- At(a.0, d.normalized, target);
      var s2 :- Prepend(a.0, arr, a.1);
      Ok(Mark(s2, key))
  }

  /** The key path of package-insight's `anyToObject`: a name goes under the key, and a leading `""` is dropped. */
  function InsightKeys(key: string, t: Target): seq<string> {
    var keys := match t case Name(n) => [key, n] case Path(keys) => keys;
    if |keys| > 0 && keys[0] == "" then keys[1..] else keys
  }

  /** The key path of packagewrap's `anyToObject`. */
  function WrapKeys(key: string, t: Target): seq<string> {
    match t
    case Name(n) => [key, n]
    case Path(keys) => keys
  }

  /** `normalized[k0] = x`, `normalized[k0][k1] = x` or `normalized[k0][k1][k2] = x`, creating the objects on the way. */
  function Nest(d: Desc, s: St, keys: seq<string>, x: Val): (r: Outcome)
    ensures r.Ok? ==> r.value.warnings == s.warnings && r.value.copied == s.copied
  {
    if |keys| == 1 then Set(s, d.normalized, keys[0], x)
    else
      var s1 :- Ensure(s, d.normalized, Elem(keys, 0), EmptyObject);
      var o :- At(s1, d.normalized, Elem(keys, 0));
      if |keys| == 2 then Set(s1, o, keys[1], x)
      else NestDeep(d, s1, o, keys, x)
  }

  /** The third level of `Nest`: `normalized[k0][k1]` is created when missing and `x` is put under `k2`. */
  function NestDeep(d: Desc, s: St, o: Val, keys: seq<string>, x: Val): (r: Outcome)
    ensures r.Ok? ==> r.value.warnings == s.warnings && r.value.copied == s.copied
  {
    var s1 :- Ensure(s, o, Elem(keys, 1), EmptyObject);
    var o' :- At(s1, d.normalized, Elem(keys, 0));
    var o2 :- At(s1, o', Elem(keys, 1));
    Set(s1, o2, Elem(keys, 2), x)
  }

  /** packagewrap's `normalized[k0][k1] = x`, creating `normalized[k0]` when missing. */
  function NestTwo(d: Desc, s: St, keys: seq<string>, x: Val): (r: Outcome)
    ensures r.Ok? ==> r.value.warnings == s.warnings && r.value.copied == s.copied
  {
    var s1 :- Ensure(s, d.normalized, Elem(keys, 0), EmptyObject);
    var o :- At(s1, d.normalized, Elem(keys, 0));
    Set(s1, o, Elem(keys, 1), x)
  }

  /** `anyToObject(key, targetKey, formatter)`: a defined value is (formatted and) placed at the key path. */
  function AnyToObject(v: Variant, d: Desc, s: St, key: string, t: Target, f: Option<Formatter>): Outcome {
    var x :- At(s, d.raw, key);
    if x == Undefined then Ok(s)
    else if v == Insight then
      var a :- Format(s, f, x);
      var s1 :- Nest(d, a.0, InsightKeys(key, t), a.1);
      Ok(Mark(s1, key))
    else
      var s1 :- NestTwo(d, s, WrapKeys(key, t), x);
      Ok(Mark(s1, key))
  }

  /** `removeIfMatch(key, match)`: the key counts as copied when its value is strictly equal to `match`. */
  function RemoveIfMatch(d: Desc, s: St, key: string, m: Val): Outcome {
    var x :- At(s, d.raw, key);
    if x == m then Ok(Mark(s, key)) else Ok(s)
  }

  /** `remove(key)`. */
  function Remove(s: St, key: string): St {
    Mark(s, key)
  }

  function IgnoredWarning(key: string): Warning {
    ("normalize", "Property '" + key + "' was ignored")
  }

  /** The first `|keys|` rounds of `Object.keys(raw).forEach(...)`, the pass that reports keys never copied. */
  function UnusedFold(s: St, keys: seq<string>): St {
    if keys == [] then s
    else
      var s1 := UnusedFold(s, keys[..|keys| - 1]);
      var k := keys[|keys| - 1];
      if Copied(s1, k) then s1 else s1.(warnings := s1.warnings + [IgnoredWarning(k)])
  }

  /** The unused-key pass; `Object.keys` throws when `raw` is `null` or `undefined`. */
  function Unused(d: Desc, s: St): Outcome {
    var keys :- Lift(s, ObjectKeys(s.heap, d.raw));
    Ok(UnusedFold(s, keys))
  }
}
