/**
 * The slice of JavaScript the descriptor normalisers rely on: values, a heap
 * of objects and arrays reached by reference, property reads and writes in
 * sloppy mode, `typeof`, truthiness, string conversion and `unshift`.
 *
 * Objects live in a heap so that sharing is exact: `normalized[key] =
 * raw[key]` makes both names point at one object, and a later write through
 * either is seen through both. References point into the heap; one past its
 * end reads as `undefined` only so that every function here is total.
 */
module Js {
  import opened Base
  import opened Props

  /**
   * A value. `Builtin(name)` is what a read of an `Object.prototype` member
   * yields (a built-in function, or the prototype object itself for
   * `__proto__`). Numbers are integers.
   */
  datatype Val = Undefined | Null | Bool(b: bool) | Num(n: int) | Str(s: string) | Ref(loc: nat) | Builtin(name: string)

  /** An object or an array: its own enumerable properties in JavaScript order, and an array's `length`. */
  datatype Obj = Obj(isArray: bool, props: Props<Val>, length: nat)

  type Heap = seq<Obj>

  /** What a statement throws. */
  datatype Thrown = TypeError | RangeError

  const EmptyObject := Obj(false, [], 0)
  const EmptyArray := Obj(true, [], 0)

  /** The largest array length plus one. */
  const ArrayLimit := 0x1_0000_0000

  /** `typeof v`. */
  function TypeOf(v: Val): string {
    match v
    case Undefined => "undefined"
    case Null => "object"
    case Bool(_) => "boolean"
    case Num(_) => "number"
    case Str(_) => "string"
    case Ref(_) => "object"
    case Builtin(name) => if name == "__proto__" then "object" else "function"
  }

  /** `!!v`. */
  predicate Truthy(v: Val) {
    match v
    case Undefined => false
    case Null => false
    case Bool(b) => b
    case Num(n) => n != 0
    case Str(s) => s != ""
    case Ref(_) => true
    case Builtin(_) => true
  }

  /** `Array.isArray(v)`. */
  predicate IsArray(h: Heap, v: Val) {
    v.Ref? && v.loc < |h| && h[v.loc].isArray
  }

  /** The `i`-th of the twelve names every object inherits from `Object.prototype`. */
  function ProtoMember(i: nat): string {
    match i
    case 0 => "constructor"
    case 1 => "hasOwnProperty"
    case 2 => "isPrototypeOf"
    case 3 => "propertyIsEnumerable"
    case 4 => "toLocaleString"
    case 5 => "toString"
    case 6 => "valueOf"
    case 7 => "__proto__"
    case 8 => "__defineGetter__"
    case 9 => "__defineSetter__"
    case 10 => "__lookupGetter__"
    case _ => "__lookupSetter__"
  }

  /** `k` is one of the members from the `i`-th on. */
  predicate ProtoFrom(k: string, i: nat)
    decreases 12 - i
  {
    i < 12 && (ProtoMember(i) == k || ProtoFrom(k, i + 1))
  }

  /** Names every object inherits from `Object.prototype`. */
  predicate ObjectProtoName(k: string) {
    ProtoFrom(k, 0)
  }

  /** A read that finds no own property. */
  function Inherited(k: string): (r: Val)
    ensures r == Undefined <==> !ObjectProtoName(k)
  {
    if ObjectProtoName(k) then Builtin(k) else Undefined
  }

  /** `o[k]` on an object of the heap. */
  function OwnRead(o: Obj, k: string): Val {
    match Get(o.props, k)
    case Some(x) => x
    case None => if o.isArray && k == "length" then Num(o.length) else Inherited(k)
  }

  /** `v[k]` for a value that is neither `undefined` nor `null`: a string has its length and characters. */
  function Lookup(h: Heap, v: Val, k: string): Val {
    match v
    case Ref(l) => if l < |h| then OwnRead(h[l], k) else Undefined
    case Str(s) =>
      if k == "length" then Num(|s|)
      else if IsArrayIndex(k) && Index(k) < |s| then Str([s[Index(k)]])
      else Inherited(k)
    case _ => Inherited(k)
  }

  /** `v[k]`: reading from `undefined` or `null` throws. */
  function Read(h: Heap, v: Val, k: string): (r: Result<Val, Thrown>)
    ensures r.Err? <==> v == Undefined || v == Null
    ensures r.Ok? ==> r.value == Lookup(h, v, k)
  {
    if v == Undefined || v == Null then Err(TypeError) else Ok(Lookup(h, v, k))
  }

  /** The index properties of an array below `n`, and every other property. */
  function Below(props: Props<Val>, n: nat): (r: Props<Val>)
    ensures |r| <= |props|
  {
    if props == [] then []
    else if IsArrayIndex(props[0].0) && Index(props[0].0) >= n then Below(props[1..], n)
    else [props[0]] + Below(props[1..], n)
  }

  /** `o[k] = x` on an object of the heap. */
  function OwnWrite(o: Obj, k: string, x: Val): Result<Obj, Thrown> {
    if !o.isArray then Ok(o.(props := Put(o.props, k, x)))
    else if k == "length" then
      if x.Num? && 0 <= x.n < ArrayLimit then Ok(Obj(true, Below(o.props, x.n), x.n)) else Err(RangeError)
    else if IsArrayIndex(k) then
      Ok(Obj(true, Put(o.props, k, x), if Index(k) < o.length then o.length else Index(k) + 1))
    else Ok(o.(props := Put(o.props, k, x)))
  }

  /** `v[k] = x` in sloppy mode: writing to `undefined` or `null` throws, writing to another primitive does nothing. */
  function Write(h: Heap, v: Val, k: string, x: Val): (r: Result<Heap, Thrown>)
    ensures r.Ok? ==> |r.value| == |h|
    ensures r.Ok? && !(v.Ref? && v.loc < |h|) ==> r.value == h
    ensures r.Ok? && v.Ref? && v.loc < |h| ==> r.value == h[v.loc := r.value[v.loc]]
  {
    match v
    case Undefined => Err(TypeError)
    case Null => Err(TypeError)
    case Ref(l) =>
      if l < |h| then
        var o :- OwnWrite(h[l], k, x);
        Ok(h[l := o])
      else Ok(h)
    case _ => Ok(h)
  }

  /** A new object at the end of the heap. */
  function Alloc(h: Heap, o: Obj): (r: (Heap, Val))
    ensures r.0 == h + [o] && r.1 == Ref(|h|)
  {
    (h + [o], Ref(|h|))
  }

  /** The keys `for (k in v)` visits, taken when the loop starts. */
  function ForInKeys(h: Heap, v: Val): seq<string> {
    match v
    case Ref(l) => if l < |h| then Keys(h[l].props) else []
    case Str(s) => seq(|s|, i requires 0 <= i < |s| => NatText(i))
    case _ => []
  }

  /** The value of the own property `k` of `v`, as a `for (k in v)` loop reads `v[k]`. */
  function OwnValue(h: Heap, v: Val, k: string): Val {
    match v
    case Ref(l) =>
      if l < |h| then (match Get(h[l].props, k) case Some(x) => x case None => Undefined) else Undefined
    case Str(s) => if IsArrayIndex(k) && Index(k) < |s| then Str([s[Index(k)]]) else Undefined
    case _ => Undefined
  }

  /** A key a `for (k in v)` loop visits is an own property: reading `v[k]` finds it and nothing inherited. */
  lemma ForInRead(h: Heap, v: Val, k: string)
    requires k in ForInKeys(h, v)
    ensures Lookup(h, v, k) == OwnValue(h, v, k)
  {
    match v
    case Ref(l) =>
      var props := h[l].props;
      var i :| 0 <= i < |props| && props[i].0 == k;
      FindSpec(props, k);
    case Str(s) =>
      var i :| 0 <= i < |s| && NatText(i) == k;
      DigitsNotProto(k);
    case _ =>
  }

  /** `Object.keys(v)`: throws for `undefined` and `null`. */
  function ObjectKeys(h: Heap, v: Val): (r: Result<seq<string>, Thrown>)
    ensures r.Err? <==> v == Undefined || v == Null
    ensures r.Ok? ==> r.value == ForInKeys(h, v)
  {
    if v == Undefined || v == Null then Err(TypeError) else Ok(ForInKeys(h, v))
  }

  function Digit(d: nat): char
    requires d < 10
  {
    "0123456789"[d]
  }

  /** `String(n)` for a natural number. */
  function NatText(n: nat): (s: string)
    ensures |s| > 0 && AllDigits(s) && (s[0] != '0' || |s| == 1)
    ensures DecimalValue(s) == n
    decreases n
  {
    if n < 10 then [Digit(n)]
    else
      var s := NatText(n / 10) + [Digit(n % 10)];
      assert s[..|s| - 1] == NatText(n / 10);
      s
  }

  /** `String(i)` for an integer. */
  function IntText(i: int): string {
    if i < 0 then "-" + NatText(-i) else NatText(i)
  }

  lemma IndexText(n: nat)
    requires n < 0xFFFF_FFFF
    ensures IsArrayIndex(NatText(n)) && Index(NatText(n)) == n
  {
  }

  /**
   * `String(v)`. A plain object is `"[object Object]"`; an array joins its
   * elements with `,`, writing `undefined`, `null` and an array already being
   * joined as empty text.
   */
  function Text(h: Heap, v: Val): string {
    TextIn(h, v, {}, |h|)
  }

  function TextIn(h: Heap, v: Val, joining: set<nat>, fuel: nat): string
    decreases fuel, 1
  {
    match v
    case Undefined => "undefined"
    case Null => "null"
    case Bool(b) => if b then "true" else "false"
    case Num(n) => IntText(n)
    case Str(s) => s
    case Builtin(name) =>
      if name == "__proto__" then "[object Object]"
      else if name == "constructor" then "function Object() { [native code] }"
      else "function " + name + "() { [native code] }"
    case Ref(l) =>
      if l >= |h| || !h[l].isArray then "[object Object]"
      else if l in joining || fuel == 0 then ""
      else JoinFrom(h, l, joining + {l}, fuel, 0)
  }

  /** The elements of the array at `l` from `i` on, as `join(",")` writes them. */
  function JoinFrom(h: Heap, l: nat, joining: set<nat>, fuel: nat, i: nat): string
    requires l < |h| && fuel > 0
    decreases fuel, 0, h[l].length - i
  {
    if i >= h[l].length then ""
    else
      var e := OwnRead(h[l], NatText(i));
      var piece := if e == Undefined || e == Null then "" else TextIn(h, e, joining, fuel - 1);
      if i + 1 == h[l].length then piece else piece + "," + JoinFrom(h, l, joining, fuel, i + 1)
  }

  /** An index key names the next index; any other key stays. */
  function ShiftKey(k: string): string {
    if IsArrayIndex(k) then NatText(Index(k) + 1) else k
  }

  /** The index properties moved one place up, every other property kept, in the same order. */
  function ShiftUp(props: Props<Val>): (r: Props<Val>)
    ensures |r| == |props|
  {
    seq(|props|, i requires 0 <= i < |props| => (ShiftKey(props[i].0), props[i].1))
  }

  /** `a.unshift(x)` on an array: `x` becomes element 0 and every element moves up one place. */
  function Unshift(o: Obj, x: Val): (r: Result<Obj, Thrown>)
    requires o.isArray
    ensures r.Ok? ==> r.value.isArray && r.value.length == o.length + 1 && |r.value.props| == |o.props| + 1
    ensures r.Ok? ==> r.value.props[0] == ("0", x) && r.value.props[1..] == ShiftUp(o.props)
  {
    if o.length + 1 >= ArrayLimit then Err(RangeError)
    else Ok(Obj(true, [("0", x)] + ShiftUp(o.props), o.length + 1))
  }

  /** Reading an own property just written returns what was written, and nothing else changes. */
  lemma ReadAfterWrite(h: Heap, v: Val, k: string, x: Val, k': string)
    requires v.Ref? && v.loc < |h| && !h[v.loc].isArray
    ensures Write(h, v, k, x).Ok?
    ensures var h' := Write(h, v, k, x).value;
      && (forall l | 0 <= l < |h| && l != v.loc :: h'[l] == h[l])
      && Get(h'[v.loc].props, k') == if k' == k then Some(x) else Get(h[v.loc].props, k')
  {
    GetPut(h[v.loc].props, k, x, k');
  }

  /** Writing a named key that is neither an index nor `length` keeps every other key, and every object's kind. */
  lemma WriteOtherKey(h: Heap, v: Val, k: string, x: Val, w: Val, k': string)
    requires Write(h, v, k, x).Ok? && k' != k && !IsArrayIndex(k) && k != "length"
    ensures Lookup(Write(h, v, k, x).value, w, k') == Lookup(h, w, k')
    ensures forall l | 0 <= l < |h| :: Write(h, v, k, x).value[l].isArray == h[l].isArray
  {
    if v.Ref? && v.loc < |h| {
      GetPut(h[v.loc].props, k, x, k');
    }
  }

  /** The elements of an array, `a[0]` to `a[length - 1]`. */
  function Elements(o: Obj): seq<Val> {
    seq(o.length, i requires 0 <= i < o.length => OwnRead(o, NatText(i)))
  }

  /** `unshift` puts the new value in front of the old elements. */
  lemma UnshiftElements(o: Obj, x: Val)
    requires o.isArray && Unshift(o, x).Ok?
    ensures Elements(Unshift(o, x).value) == [x] + Elements(o)
  {
    var r := Unshift(o, x).value;
    var e, e' := Elements(r), [x] + Elements(o);
    forall i | 0 <= i < r.length ensures e[i] == e'[i] {
      IndexText(i);
      DigitsNotProto(NatText(i));
      assert r.props == [("0", x)] + ShiftUp(o.props);
      GetCons("0", x, ShiftUp(o.props), NatText(i));
      if i == 0 {
        assert NatText(0) == "0";
      } else {
        ShiftedGet(o.props, i);
        IndexText(i - 1);
        DigitsNotProto(NatText(i - 1));
        assert e'[i] == OwnRead(o, NatText(i - 1));
      }
    }
  }

  lemma GetCons(k: string, v: Val, props: Props<Val>, k': string)
    ensures Get([(k, v)] + props, k') == if k == k' then Some(v) else Get(props, k')
  {
    assert ([(k, v)] + props)[1..] == props;
  }

  /** Decimal text names no member of `Object.prototype`. */
  lemma DigitsNotProto(k: string)
    requires |k| > 0 && IsDigit(k[0])
    ensures !ObjectProtoName(k) && k != "length"
  {
    DigitsNotProtoFrom(k, 0);
  }

  lemma {:induction false} DigitsNotProtoFrom(k: string, i: nat)
    requires |k| > 0 && IsDigit(k[0])
    ensures !ProtoFrom(k, i)
    decreases 12 - i
  {
    if i < 12 {
      assert !IsDigit(ProtoMember(i)[0]);
      DigitsNotProtoFrom(k, i + 1);
    }
  }

  /** Looking up index `i` after the shift finds what index `i - 1` held before. */
  lemma {:induction false} ShiftedGet(props: Props<Val>, i: nat)
    requires 0 < i < 0xFFFF_FFFF
    ensures Get(ShiftUp(props), NatText(i)) == Get(props, NatText(i - 1))
    decreases |props|
  {
    if props != [] {
      var k := props[0].0;
      ShiftedKey(k, i);
      assert ShiftUp(props)[1..] == ShiftUp(props[1..]);
      ShiftedGet(props[1..], i);
    }
  }

  /** A key lands on index `i` after the shift exactly when it was index `i - 1`. */
  lemma ShiftedKey(k: string, i: nat)
    requires 0 < i < 0xFFFF_FFFF
    ensures ShiftKey(k) == NatText(i) <==> k == NatText(i - 1)
  {
    IndexText(i);
    IndexText(i - 1);
    if IsArrayIndex(k) {
      NatTextOnly(k);
      if NatText(Index(k) + 1) == NatText(i) {
        assert DecimalValue(NatText(Index(k) + 1)) == Index(k) + 1;
      }
    }
  }

  /** An array index is the decimal text of its own value. */
  lemma NatTextOnly(k: string)
    requires IsArrayIndex(k)
    ensures NatText(Index(k)) == k
  {
    CanonicalDecimal(k);
  }

  lemma {:induction false} CanonicalDecimal(k: string)
    requires |k| > 0 && AllDigits(k) && (k[0] != '0' || |k| == 1)
    ensures NatText(DecimalValue(k)) == k
    decreases |k|
  {
    var n := DecimalValue(k);
    var last := k[|k| - 1] as int - '0' as int;
    if |k| == 1 {
      assert k[..0] == [];
      assert DecimalValue(k) == 10 * DecimalValue(k[..0]) + last;
      assert n == last;
      assert NatText(n) == [Digit(n)];
    } else {
      var pre := k[..|k| - 1];
      assert pre[0] == k[0];
      CanonicalDecimal(pre);
      assert DecimalValue(pre) > 0 by {
        LeadingNonZero(pre);
      }
      assert n == 10 * DecimalValue(pre) + last;
      assert n / 10 == DecimalValue(pre) && n % 10 == last;
      assert k == pre + [k[|k| - 1]];
    }
  }

  lemma {:induction false} LeadingNonZero(s: string)
    requires |s| > 0 && AllDigits(s) && s[0] != '0'
    ensures DecimalValue(s) > 0
    decreases |s|
  {
    if |s| > 1 {
      LeadingNonZero(s[..|s| - 1]);
    }
  }
}
