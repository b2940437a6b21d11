/**
 * The statements both `normalize` bodies run outside the merge helpers: the
 * `_id` check, the `_from` locator, and the objects put in place when a raw
 * key asks for them. Each is a function from the state before it to the
 * outcome, and a method that runs it on the helpers' state in place.
 */
module Steps {
  import opened Base
  import opened Props
  import opened Js
  import opened Merge
  import opened MergeHelpers
  import opened Json

  /** `descriptor.normalized.name + "@" + descriptor.normalized.version`. */
  function ReleaseId(d: Desc, s: St): Result<Val, Stop> {
    var name :- At(s, d.normalized, "name");
    Ok(Str(Text(s.heap, name) + "@" + Text(s.heap, Lookup(s.heap, d.normalized, "version"))))
  }

  /** `removeIfMatch("_id", name + "@" + version)`. */
  function IdCheck(d: Desc, s: St): Outcome {
    var id :- ReleaseId(d, s);
    RemoveIfMatch(d, s, "_id", id)
  }

  /** `"_id"` counts as copied exactly when it is the text `name@version`; nothing else changes. */
  lemma IdCheckMarks(d: Desc, s: St)
    requires IdCheck(d, s).Ok?
    ensures var r := IdCheck(d, s).value;
      && r.heap == s.heap && r.warnings == s.warnings
      && ("_id" in r.copied <==> "_id" in s.copied || Read(s.heap, d.raw, "_id") == Ok(ReleaseId(d, s).value))
      && r.copied - {"_id"} == s.copied - {"_id"}
  {
  }

  predicate LineTerminator(c: char) {
    c == '\n' || c == '\r' || c == '\U{2028}' || c == '\U{2029}'
  }

  /** No character of `t` ends a line, so `.*` matches all of it. */
  predicate OneLine(t: string) {
    forall i | 0 <= i < |t| :: !LineTerminator(t[i])
  }

  /** The position of the first `@`. */
  function FirstAt(s: string): (r: Option<nat>)
    ensures r.None? ==> '@' !in s
    ensures r.Some? ==> r.value < |s| && s[r.value] == '@' && '@' !in s[..r.value]
  {
    if s == [] then None
    else if s[0] == '@' then Some(0)
    else match FirstAt(s[1..])
      case None => None
      case Some(i) => assert s[..i + 1] == [s[0]] + s[1..][..i]; Some(i + 1)
  }

  /**
   * `s.match(/^([^@]*)@(.*?)$/)`: the text before the first `@` and all the
   * text after it, provided that text stays on one line.
   */
  function FromParts(s: string): Option<(string, string)> {
    match FirstAt(s)
    case None => None
    case Some(i) => if OneLine(s[i + 1..]) then Some((s[..i], s[i + 1..])) else None
  }

  /** The pattern matches exactly the texts `name@pointer` with no `@` in `name` and no line break in `pointer`. */
  lemma FromPartsExactly(s: string, name: string, pointer: string)
    ensures FromParts(s) == Some((name, pointer)) <==> s == name + "@" + pointer && '@' !in name && OneLine(pointer)
  {
    if s == name + "@" + pointer && '@' !in name && OneLine(pointer) {
      var i := FirstAt(s).value;
      assert s[|name|] == '@';
      assert s[..i] == name && s[i + 1..] == pointer;
    }
  }

  /** The message when `locator.pointer` already holds something else. */
  function PointerConflict(h: Heap, current: Val, pointer: string): Result<string, Thrown> {
    var pair :- JsonPair(h, current, pointer);
    Ok("Found two different values for 'locator.pointer': " + pair)
  }

  /**
   * The `_from` statement: a raw `"name@pointer"` whose name is the
   * normalised name sets `normalized.locator.pointer`.
   */
  function FromLocator(d: Desc, s: St): (r: Outcome)
    ensures r.Ok? && r.value != s ==> FromPointer(d, s).Some? && r == SetPointer(d, s, FromPointer(d, s).value)
  {
    var from :- At(s, d.raw, "_from");
    if !from.Str? || FromParts(from.s).None? then Ok(s)
    else
      var m := FromParts(from.s).value;
      var name :- At(s, d.normalized, "name");
      if name != Str(m.0) then Ok(s) else SetPointer(d, s, m.1)
  }

  /** The raw `_from` is `name@pointer` and `name` is the normalised name: the pointer it names. */
  function FromPointer(d: Desc, s: St): Option<string> {
    var from := Lookup(s.heap, d.raw, "_from");
    if from.Str? && FromParts(from.s).Some? && Lookup(s.heap, d.normalized, "name") == Str(FromParts(from.s).value.0)
    then Some(FromParts(from.s).value.1)
    else None
  }

  /**
   * `normalized.locator.pointer = pointer` and `"_from"` counts as copied,
   * unless the locator (created when missing) already holds a different
   * pointer: then exactly one warning is added and nothing is marked.
   */
  function SetPointer(d: Desc, s: St, pointer: string): (r: Outcome)
    ensures r.Ok? ==> r.value.copied <= s.copied + {"_from"}
    ensures r.Ok? && "_from" in r.value.copied - s.copied ==> r.value.warnings == s.warnings
    ensures r.Ok? && r.value.warnings != s.warnings ==>
      && r.value.copied == s.copied
      && |r.value.warnings| == |s.warnings| + 1 && r.value.warnings[..|s.warnings|] == s.warnings
  {
    var s1 :- Ensure(s, d.normalized, "locator", EmptyObject);
    var locator := Lookup(s1.heap, d.normalized, "locator");
    var current :- At(s1, locator, "pointer");
    if current != Undefined && current != Str(pointer) then
      var message :- Lift(s1, PointerConflict(s1.heap, current, pointer));
      Ok(Warn(s1, message))
    else
      var s2 :- Set(s1, locator, "pointer", Str(pointer));
      Ok(Mark(s2, "_from"))
  }

  /** Once `"_from"` is marked, a locator that is a plain object holds the pointer. */
  lemma SetPointerReads(d: Desc, s: St, pointer: string)
    requires SetPointer(d, s, pointer).Ok?
    ensures var r := SetPointer(d, s, pointer).value;
      var locator := Lookup(r.heap, d.normalized, "locator");
      "_from" in r.copied - s.copied && locator.Ref? && locator.loc < |r.heap| && !r.heap[locator.loc].isArray ==>
        Lookup(r.heap, locator, "pointer") == Str(pointer)
  {
    var s1 := Ensure(s, d.normalized, "locator", EmptyObject).value;
    var locator := Lookup(s1.heap, d.normalized, "locator");
    var r := SetPointer(d, s, pointer).value;
    if "_from" in r.copied - s.copied {
      var h2 := Write(s1.heap, locator, "pointer", Str(pointer)).value;
      assert r.heap == h2;
      WriteOtherKey(s1.heap, locator, "pointer", Str(pointer), d.normalized, "locator");
      if locator.Ref? && locator.loc < |s1.heap| && !s1.heap[locator.loc].isArray {
        ReadAfterWrite(s1.heap, locator, "pointer", Str(pointer), "pointer");
      }
    }
  }

  /** `if (typeof raw[rawKey] === "object" && typeof normalized[key] === "undefined") normalized[key] = {}`. */
  function DefaultObject(d: Desc, s: St, rawKey: string, key: string): Outcome {
    var x :- At(s, d.raw, rawKey);
    if TypeOf(x) != "object" then Ok(s)
    else
      var y :- At(s, d.normalized, key);
      if y != Undefined then Ok(s)
      else
        var n := New(s, EmptyObject);
        Set(n.0, d.normalized, key, n.1)
  }

  /** `if (typeof raw.overlay === "object") normalized.overlay = {}`. */
  function ResetOverlay(d: Desc, s: St): Outcome {
    var x :- At(s, d.raw, "overlay");
    if TypeOf(x) != "object" then Ok(s)
    else
      var n := New(s, EmptyObject);
      Set(n.0, d.normalized, "overlay", n.1)
  }

  /**
   * An object raw key leaves `normalized[key]` holding an empty object: a new
   * one when it was undefined (and kept as it was otherwise, for `DefaultObject`).
   */
  lemma DefaultObjectFresh(d: Desc, s: St, rawKey: string, key: string)
    requires d.normalized.Ref? && d.normalized.loc < |s.heap| && !s.heap[d.normalized.loc].isArray
    requires Read(s.heap, d.raw, rawKey).Ok? && TypeOf(Read(s.heap, d.raw, rawKey).value) == "object"
    ensures ResetOverlay(d, s).Ok? && DefaultObject(d, s, rawKey, key).Ok?
    ensures rawKey == "overlay" ==> var r := ResetOverlay(d, s).value;
      Lookup(r.heap, d.normalized, "overlay") == Ref(|s.heap|) && r.heap[|s.heap|] == EmptyObject
    ensures var r := DefaultObject(d, s, rawKey, key).value;
      if Lookup(s.heap, d.normalized, key) == Undefined
      then Lookup(r.heap, d.normalized, key) == Ref(|s.heap|) && r.heap[|s.heap|] == EmptyObject
      else r == s
  {
    var h1 := s.heap + [EmptyObject];
    ReadAfterWrite(h1, d.normalized, key, Ref(|s.heap|), key);
    ReadAfterWrite(h1, d.normalized, "overlay", Ref(|s.heap|), "overlay");
  }

  /** Runs `IdCheck` on the helpers' state. */
  method RunIdCheck(hp: Helpers) returns (r: Result<(), Thrown>)
    modifies hp
    ensures Pack(hp.State(), r) == IdCheck(hp.desc, old(hp.State()))
  {
    r := Ok(());
    var name :- Read(hp.heap, hp.desc.normalized, "name");
    var version := Lookup(hp.heap, hp.desc.normalized, "version");
    r := hp.RemoveIfMatch("_id", Str(Text(hp.heap, name) + "@" + Text(hp.heap, version)));
  }

  /** Runs `FromLocator` on the helpers' state. */
  method RunFromLocator(hp: Helpers) returns (r: Result<(), Thrown>)
    modifies hp
    ensures Pack(hp.State(), r) == FromLocator(hp.desc, old(hp.State()))
  {
    r := Ok(());
    var from :- Read(hp.heap, hp.desc.raw, "_from");
    if from.Str? && FromParts(from.s).Some? {
      var m := FromParts(from.s).value;
      var name :- Read(hp.heap, hp.desc.normalized, "name");
      if name == Str(m.0) {
        r := RunSetPointer(hp, m.1);
      }
    }
  }

  /** Runs `SetPointer` on the helpers' state. */
  method RunSetPointer(hp: Helpers, pointer: string) returns (r: Result<(), Thrown>)
    modifies hp
    ensures Pack(hp.State(), r) == SetPointer(hp.desc, old(hp.State()), pointer)
  {
    r := Ok(());
    var _ :- hp.Ensure(hp.desc.normalized, "locator", EmptyObject);
    var locator := Lookup(hp.heap, hp.desc.normalized, "locator");
    var current :- Read(hp.heap, locator, "pointer");
    if current != Undefined && current != Str(pointer) {
      var message :- PointerConflict(hp.heap, current, pointer);
      hp.warnings := hp.warnings + [("normalize", message)];
    } else {
      hp.heap :- Write(hp.heap, locator, "pointer", Str(pointer));
      hp.copied := hp.copied + {"_from"};
    }
  }

  /** Runs `DefaultObject` on the helpers' state. */
  method RunDefaultObject(hp: Helpers, rawKey: string, key: string) returns (r: Result<(), Thrown>)
    modifies hp
    ensures Pack(hp.State(), r) == DefaultObject(hp.desc, old(hp.State()), rawKey, key)
  {
    r := Ok(());
    var x :- Read(hp.heap, hp.desc.raw, rawKey);
    if TypeOf(x) == "object" {
      var y :- Read(hp.heap, hp.desc.normalized, key);
      if y == Undefined {
        var loc := |hp.heap|;
        hp.heap := hp.heap + [EmptyObject];
        hp.heap :- Write(hp.heap, hp.desc.normalized, key, Ref(loc));
      }
    }
  }

  /** Runs `ResetOverlay` on the helpers' state. */
  method RunResetOverlay(hp: Helpers) returns (r: Result<(), Thrown>)
    modifies hp
    ensures Pack(hp.State(), r) == ResetOverlay(hp.desc, old(hp.State()))
  {
    r := Ok(());
    var x :- Read(hp.heap, hp.desc.raw, "overlay");
    if TypeOf(x) == "object" {
      var loc := |hp.heap|;
      hp.heap := hp.heap + [EmptyObject];
      hp.heap :- Write(hp.heap, hp.desc.normalized, "overlay", Ref(loc));
    }
  }
}
