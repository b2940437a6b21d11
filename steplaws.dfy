/**
 * What the `_from` statement promises, proved about the functions that
 * model it: when it sets the pointer, and what setting it does to the
 * locator, the warnings and the copied keys.
 */
module StepLaws {
  import opened Base
  import opened Js
  import opened Merge
  import opened MergeLaws
  import opened Steps

  /**
   * The `_from` statement sets the pointer exactly when the raw `_from` names
   * the normalised name, and otherwise leaves everything as it was.
   */
  lemma FromLocatorSets(d: Desc, s: St)
    requires Readable(d.raw) && Readable(d.normalized)
    ensures FromLocator(d, s) == if FromPointer(d, s).Some? then SetPointer(d, s, FromPointer(d, s).value) else Ok(s)
  {
  }

  /** `"pointer"` is not inherited from `Object.prototype`: a new locator has no pointer. */
  lemma PointerNotInherited()
    ensures Inherited("pointer") == Undefined
  {
    assert !ProtoFrom("pointer", 11) && !ProtoFrom("pointer", 10) && !ProtoFrom("pointer", 9) by {
      assert ProtoMember(11)[0] != 'p' && ProtoMember(10)[0] != 'p' && ProtoMember(9)[0] != 'p';
    }
    assert !ProtoFrom("pointer", 6) by {
      assert ProtoMember(8)[0] != 'p' && ProtoMember(7)[0] != 'p' && ProtoMember(6)[0] != 'p';
    }
    assert !ProtoFrom("pointer", 3) by {
      assert ProtoMember(5)[0] != 'p' && ProtoMember(4)[0] != 'p' && |ProtoMember(3)| != 7;
    }
    assert ProtoMember(2)[0] != 'p' && ProtoMember(1)[0] != 'p' && ProtoMember(0)[0] != 'p';
  }

  /**
   * `SetPointer` on a plain normalised object whose locator is missing or a
   * plain object: when the locator holds no pointer or the same one, the
   * pointer is written, `"_from"` counts as copied and nothing is reported
   * (a missing locator becomes a new object holding just the pointer); when
   * it holds a different one, that one is kept, the clash is reported once
   * and nothing is marked or written.
   */
  lemma SetPointerCases(d: Desc, s: St, pointer: string)
    requires PlainObject(s.heap, d.normalized)
    requires var l0 := Lookup(s.heap, d.normalized, "locator"); !Truthy(l0) || PlainObject(s.heap, l0)
    ensures var l0 := Lookup(s.heap, d.normalized, "locator");
      var current, r := if Truthy(l0) then Lookup(s.heap, l0, "pointer") else Undefined, SetPointer(d, s, pointer);
      if current == Undefined || current == Str(pointer) then
        var locator := if Truthy(l0) then l0 else Ref(|s.heap|);
        && r.Ok? && r.value.copied == s.copied + {"_from"} && r.value.warnings == s.warnings
        && Lookup(r.value.heap, d.normalized, "locator") == locator
        && Lookup(r.value.heap, locator, "pointer") == Str(pointer)
        && (!Truthy(l0) ==> r.value.heap[|s.heap|] == EmptyObject.(props := [("pointer", Str(pointer))]))
      else
        r == match PointerConflict(s.heap, current, pointer)
             case Ok(message) => Ok(Warn(s, message))
             case Err(e) => Err(Stop(s, e))
  {
    var l0 := Lookup(s.heap, d.normalized, "locator");
    var s1, locator := EnsureLevel(s, d.normalized, "locator");
    if !Truthy(l0) {
      PointerNotInherited();
    }
    var current := Lookup(s1.heap, locator, "pointer");
    assert current == if Truthy(l0) then Lookup(s.heap, l0, "pointer") else Undefined;
    if current == Undefined || current == Str(pointer) {
      WritePlain(s1.heap, locator, "pointer", Str(pointer));
      var h2 := Write(s1.heap, locator, "pointer", Str(pointer)).value;
      assert SetPointer(d, s, pointer) == Ok(Mark(s1.(heap := h2), "_from"));
      if locator.loc == d.normalized.loc {
        assert Lookup(h2, d.normalized, "locator") == Lookup(s1.heap, d.normalized, "locator");
      } else {
        LookupFrame(s1.heap, h2, d.normalized, "locator");
      }
    }
  }
}
