/**
 * The merge helpers as the source runs them: an object closing over the
 * descriptor and `copied`, whose methods change the heap, the warnings and
 * the copied set in place. Each method is proved to leave exactly the state
 * (or stop exactly where) the matching function of `Merge` says.
 */
module MergeHelpers {
  import opened Base
  import opened Props
  import opened Js
  import opened Merge

  /** The state a method leaves, paired with what it threw. */
  function Pack(s: St, r: Result<(), Thrown>): Outcome {
    if r.Ok? then Ok(s) else Err(Stop(s, r.error))
  }

  lemma MergeFoldPrefix(d: Desc, s: St, key: string, keys: seq<string>, f: Option<Formatter>, target: Val, names: seq<string>, i: nat)
    requires i <= |names| && MergeFold(d, s, key, keys, f, target, names[..i]).Err?
    ensures MergeFold(d, s, key, keys, f, target, names) == MergeFold(d, s, key, keys, f, target, names[..i])
    decreases |names|
  {
    if i < |names| {
      var pre := names[..|names| - 1];
      assert pre[..i] == names[..i];
      MergeFoldPrefix(d, s, key, keys, f, target, pre, i);
    } else {
      assert names[..i] == names;
    }
  }

  /** One more round of the merge loop: its outcome is the fold's, and a throw ends the whole fold. */
  lemma MergeFoldStep(d: Desc, s: St, key: string, keys: seq<string>, f: Option<Formatter>, target: Val, names: seq<string>, i: nat, before: St, r: Outcome)
    requires i < |names| && MergeFold(d, s, key, keys, f, target, names[..i]) == Ok(before)
    requires r == MergeName(d, before, key, keys, f, target, names[i])
    ensures MergeFold(d, s, key, keys, f, target, names[..i + 1]) == r
    ensures r.Err? ==> MergeFold(d, s, key, keys, f, target, names) == r
  {
    assert names[..i + 1][..i] == names[..i];
    if r.Err? {
      MergeFoldPrefix(d, s, key, keys, f, target, names, i + 1);
    }
  }

  class Helpers {
    var heap: Heap
    var warnings: seq<Warning>
    var copied: set<string>
    const desc: Desc
    const variant: Variant

    function State(): St
      reads this
    {
      St(heap, warnings, copied)
    }

    /** `makeMergeHelpers(exports, descriptor, copied)` with nothing copied and no warnings yet. */
    constructor (h: Heap, d: Desc, v: Variant)
      ensures State() == St(h, [], {}) && desc == d && variant == v
    {
      heap, warnings, copied := h, [], {};
      desc, variant := d, v;
    }

    method Ensure(v: Val, k: string, o: Obj) returns (r: Result<(), Thrown>)
      modifies this
      ensures Pack(State(), r) == Merge.Ensure(old(State()), v, k, o)
    {
      r := Ok(());
      var x :- Read(heap, v, k);
      if !Truthy(x) {
        var loc := |heap|;
        heap := heap + [o];
        heap :- Write(heap, v, k, Ref(loc));
      }
    }

    method String(key: string) returns (r: Result<(), Thrown>)
      modifies this
      ensures Pack(State(), r) == Merge.String(desc, old(State()), key)
    {
      r := Ok(());
      var x :- Read(heap, desc.raw, key);
      if x.Str? {
        heap :- Write(heap, desc.normalized, key, x);
        copied := copied + {key};
      }
    }

    method StringToArray(key: string, target: string, f: Option<Formatter>) returns (r: Result<(), Thrown>)
      modifies this
      ensures Pack(State(), r) == Merge.StringToArray(desc, old(State()), key, target, f)
    {
      r := Ok(());
      var x :- Read(heap, desc.raw, key);
      if x.Str? {
        r := AnyToArray(key, target, f);
      }
    }

    method BooleanToObject(key: string, t: Target) returns (r: Result<(), Thrown>)
      modifies this
      ensures Pack(State(), r) == Merge.BooleanToObject(variant, desc, old(State()), key, t)
    {
      r := Ok(());
      var x :- Read(heap, desc.raw, key);
      if x.Bool? {
        r := AnyToObject(key, t, None);
      }
    }

    method StringToObject(key: string, t: Target, f: Option<Formatter>) returns (r: Result<(), Thrown>)
      modifies this
      ensures Pack(State(), r) == Merge.StringToObject(variant, desc, old(State()), key, t, f)
    {
      r := Ok(());
      var x :- Read(heap, desc.raw, key);
      if x.Str? {
        r := AnyToObject(key, t, f);
      }
    }

    method ObjectToObject(key: string, t: Target, f: Option<Formatter>) returns (r: Result<(), Thrown>)
      modifies this
      ensures Pack(State(), r) == Merge.ObjectToObject(variant, desc, old(State()), key, t, f)
    {
      r := Ok(());
      var x :- Read(heap, desc.raw, key);
      if TypeOf(x) == "object" {
        var keys :- ObjectKeys(heap, x);
        if |keys| > 0 {
          var _ :- AnyToObject(key, t, f);
        }
        copied := copied + {key};
      }
    }

    method ArrayToObject(key: string, t: Target, f: Option<Formatter>) returns (r: Result<(), Thrown>)
      modifies this
      ensures Pack(State(), r) == Merge.ArrayToObject(variant, desc, old(State()), key, t, f)
    {
      r := Ok(());
      var x :- Read(heap, desc.raw, key);
      if Truthy(x) && IsArray(heap, x) {
        if heap[x.loc].length > 0 {
          var _ :- AnyToObject(key, t, f);
        }
        copied := copied + {key};
      }
    }

    method Array(key: string) returns (r: Result<(), Thrown>)
      modifies this
      ensures Pack(State(), r) == Merge.Array(desc, old(State()), key)
    {
      r := Ok(());
      var x :- Read(heap, desc.raw, key);
      if Truthy(x) && IsArray(heap, x) {
        if heap[x.loc].length > 0 {
          heap :- Write(heap, desc.normalized, key, x);
        }
        copied := copied + {key};
      }
    }

    method Object(key: string) returns (r: Result<(), Thrown>)
      modifies this
      ensures Pack(State(), r) == Merge.Object(desc, old(State()), key)
    {
      r := Ok(());
      var x :- Read(heap, desc.raw, key);
      if Truthy(x) && TypeOf(x) == "object" {
        heap :- Write(heap, desc.normalized, key, x);
        copied := copied + {key};
      }
    }

    /** Finds (creating on the way) the object `mergeObjectTo` merges into. */
    method MergeTarget(keys: seq<string>) returns (r: Result<Val, Thrown>)
      modifies this
      ensures r.Ok? ==> Merge.MergeTarget(desc, old(State()), keys) == Ok((State(), r.value))
      ensures r.Err? ==> Merge.MergeTarget(desc, old(State()), keys) == Err(Stop(State(), r.error))
    {
      var _ :- Ensure(desc.normalized, Elem(keys, 0), EmptyObject);
      var target := Lookup(heap, desc.normalized, Elem(keys, 0));
      if |keys| == 2 {
        var _ :- Ensure(target, keys[1], EmptyObject);
        target := Lookup(heap, target, keys[1]);
      }
      r := Ok(target);
    }

    /** One round of the merge loop. */
    method MergeName(key: string, keys: seq<string>, f: Option<Formatter>, target: Val, name: string) returns (r: Result<(), Thrown>)
      modifies this
      ensures Pack(State(), r) == Merge.MergeName(desc, old(State()), key, keys, f, target, name)
    {
      r := Ok(());
      var current :- Read(heap, target, name);
      var source :- Read(heap, desc.raw, key);
      var x :- Read(heap, source, name);
      if current != Undefined && current != x {
        warnings := warnings + [("normalize", MergeWarning(keys, key, name))];
      } else {
        r := Assign(f, target, name, x);
      }
    }

    /** `target[name] = formatter(value)`. */
    method Assign(f: Option<Formatter>, target: Val, name: string, x: Val) returns (r: Result<(), Thrown>)
      modifies this
      ensures Pack(State(), r) == (var a :- Format(old(State()), f, x); Set(a.0, target, name, a.1))
    {
      r := Ok(());
      var value := x;
      if f.Some? {
        var a :- f.value(heap, x);
        heap, value := a.0, a.1;
      }
      heap :- Write(heap, target, name, value);
    }

    method MergeObjectTo(key: string, t: Target, f: Option<Formatter>) returns (r: Result<(), Thrown>)
      modifies this
      ensures Pack(State(), r) == Merge.MergeObjectTo(desc, old(State()), key, t, f)
    {
      r := Ok(());
      var x :- Read(heap, desc.raw, key);
      if Truthy(x) && TypeOf(x) == "object" {
        var keys := MergeKeys(t);
        var target :- MergeTarget(keys);
        var _ :- MergeInto(key, keys, f, target);
        copied := copied + {key};
      }
    }

    /** The merge loop itself. */
    method MergeInto(key: string, keys: seq<string>, f: Option<Formatter>, target: Val) returns (r: Result<(), Thrown>)
      modifies this
      ensures Pack(State(), r) == Merge.MergeInto(desc, old(State()), key, keys, f, target)
    {
      r := Ok(());
      var source :- Read(heap, desc.raw, key);
      r := MergeFor(key, keys, f, target, ForInKeys(heap, source));
    }

    /** One `MergeName` round per name, stopping at the first throw. */
    method MergeFor(key: string, keys: seq<string>, f: Option<Formatter>, target: Val, names: seq<string>) returns (r: Result<(), Thrown>)
      modifies this
      ensures Pack(State(), r) == MergeFold(desc, old(State()), key, keys, f, target, names)
    {
      r := Ok(());
      ghost var s0 := State();
      var i := 0;
      while i < |names|
        invariant 0 <= i <= |names| && r.Ok?
        invariant MergeFold(desc, s0, key, keys, f, target, names[..i]) == Ok(State())
      {
        ghost var before := State();
        r := MergeName(key, keys, f, target, names[i]);
        MergeFoldStep(desc, s0, key, keys, f, target, names, i, before, Pack(State(), r));
        if r.Err? {
          return;
        }
        i := i + 1;
      }
      assert names[..i] == names;
    }

    method AnyToArray(key: string, target: string, f: Option<Formatter>) returns (r: Result<(), Thrown>)
      modifies this
      ensures Pack(State(), r) == Merge.AnyToArray(desc, old(State()), key, target, f)
    {
      r := Ok(());
      var x :- Read(heap, desc.raw, key);
      if x != Undefined {
        var _ :- Ensure(desc.normalized, target, EmptyArray);
        var value := x;
        if f.Some? {
          var a :- f.value(heap, x);
          heap, value := a.0, a.1;
        }
        var arr := Lookup(heap, desc.normalized, target);
        if !IsArray(heap, arr) {
          return Err(TypeError);
        }
        var o :- Unshift(heap[arr.loc], value);
        heap := heap[arr.loc := o];
        copied := copied + {key};
      }
    }

    /** Places a value at a key path of up to three names, as package-insight's `anyToObject` does. */
    method Nest(keys: seq<string>, x: Val) returns (r: Result<(), Thrown>)
      modifies this
      ensures Pack(State(), r) == Merge.Nest(desc, old(State()), keys, x)
    {
      r := Ok(());
      if |keys| == 1 {
        heap :- Write(heap, desc.normalized, keys[0], x);
        return;
      }
      var _ :- Ensure(desc.normalized, Elem(keys, 0), EmptyObject);
      var o := Lookup(heap, desc.normalized, Elem(keys, 0));
      if |keys| == 2 {
        heap :- Write(heap, o, keys[1], x);
      } else {
        r := NestDeep(o, keys, x);
      }
    }

    method NestDeep(o: Val, keys: seq<string>, x: Val) returns (r: Result<(), Thrown>)
      modifies this
      ensures Pack(State(), r) == Merge.NestDeep(desc, old(State()), o, keys, x)
    {
      r := Ok(());
      var _ :- Ensure(o, Elem(keys, 1), EmptyObject);
      var o' :- Read(heap, desc.normalized, Elem(keys, 0));
      var o2 :- Read(heap, o', Elem(keys, 1));
      heap :- Write(heap, o2, Elem(keys, 2), x);
    }

    /** packagewrap's two-level placement. */
    method NestTwo(keys: seq<string>, x: Val) returns (r: Result<(), Thrown>)
      modifies this
      ensures Pack(State(), r) == Merge.NestTwo(desc, old(State()), keys, x)
    {
      r := Ok(());
      var _ :- Ensure(desc.normalized, Elem(keys, 0), EmptyObject);
      var o := Lookup(heap, desc.normalized, Elem(keys, 0));
      heap :- Write(heap, o, Elem(keys, 1), x);
    }

    method AnyToObject(key: string, t: Target, f: Option<Formatter>) returns (r: Result<(), Thrown>)
      modifies this
      ensures Pack(State(), r) == Merge.AnyToObject(variant, desc, old(State()), key, t, f)
    {
      r := Ok(());
      var x :- Read(heap, desc.raw, key);
      if x != Undefined {
        if variant == Insight {
          var value := x;
          if f.Some? {
            var a :- f.value(heap, x);
            heap, value := a.0, a.1;
          }
          var _ :- Nest(InsightKeys(key, t), value);
        } else {
          var _ :- NestTwo(WrapKeys(key, t), x);
        }
        copied := copied + {key};
      }
    }

    method RemoveIfMatch(key: string, m: Val) returns (r: Result<(), Thrown>)
      modifies this
      ensures Pack(State(), r) == Merge.RemoveIfMatch(desc, old(State()), key, m)
    {
      r := Ok(());
      var x :- Read(heap, desc.raw, key);
      if x == m {
        copied := copied + {key};
      }
    }

    method Remove(key: string)
      modifies this
      ensures State() == Merge.Remove(old(State()), key)
    {
      copied := copied + {key};
    }

    /** `Object.keys(descriptor.raw).forEach(...)`: a warning for every key not copied. */
    method Unused() returns (r: Result<(), Thrown>)
      modifies this
      ensures Pack(State(), r) == Merge.Unused(desc, old(State()))
    {
      r := Ok(());
      var keys :- ObjectKeys(heap, desc.raw);
      ghost var s0 := State();
      var i := 0;
      while i < |keys|
        invariant 0 <= i <= |keys|
        invariant State() == UnusedFold(s0, keys[..i])
      {
        assert keys[..i + 1][..i] == keys[..i];
        var key := keys[i];
        if !(key in copied || ObjectProtoName(key)) {
          warnings := warnings + [IgnoredWarning(key)];
        }
        i := i + 1;
      }
      assert keys[..i] == keys;
    }
  }
}
