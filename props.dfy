/**
 * Plain JavaScript objects as ordered property lists.
 *
 * Enumeration (`for..in`, `Object.keys`) of an ordinary object lists the
 * array-index keys first, in ascending numeric order, and then every other key
 * in the order in which it was created. Assigning to an existing key keeps its
 * place. `Put` builds exactly that order, so a list built by `Put` from `[]`
 * enumerates the way the JavaScript object would.
 */
module Props {
  import opened Base

  type Props<V> = seq<(string, V)>

  predicate IsDigit(c: char) {
    '0' <= c <= '9'
  }

  predicate AllDigits(s: string) {
    forall i | 0 <= i < |s| :: IsDigit(s[i])
  }

  function DecimalValue(s: string): nat
    requires AllDigits(s)
  {
    if s == [] then 0 else 10 * DecimalValue(s[..|s| - 1]) + (s[|s| - 1] as int - '0' as int)
  }

  /** A canonical array index: decimal, no leading zero, below 2^32 - 1. */
  predicate IsArrayIndex(k: string) {
    && |k| > 0
    && AllDigits(k)
    && (k[0] != '0' || |k| == 1)
    && DecimalValue(k) < 0xFFFF_FFFF
  }

  function Index(k: string): nat
    requires IsArrayIndex(k)
  {
    DecimalValue(k)
  }

  function Keys<V>(o: Props<V>): seq<string> {
    seq(|o|, i requires 0 <= i < |o| => o[i].0)
  }

  /** `Find` gives the first position holding `k`, and `None` only when no position does. */
  lemma {:induction false} FindSpec<V>(o: Props<V>, k: string)
    ensures Find(o, k).None? ==> forall i | 0 <= i < |o| :: o[i].0 != k
    ensures Find(o, k).Some? ==> o[Find(o, k).value].0 == k
    ensures Find(o, k).Some? ==> forall i | 0 <= i < Find(o, k).value :: o[i].0 != k
  {
    if o != [] && o[0].0 != k {
      FindSpec(o[1..], k);
    }
  }

  /** Position of the property named `k`, if there is one. */
  function Find<V>(o: Props<V>, k: string): (r: Option<nat>)
    ensures r.Some? ==> r.value < |o|
  {
    if o == [] then None
    else if o[0].0 == k then Some(0)
    else match Find(o[1..], k)
      case None => None
      case Some(i) => Some(i + 1)
  }

  /** `o[k]`: `None` stands for `undefined`. */
  function Get<V>(o: Props<V>, k: string): Option<V> {
    match Find(o, k)
    case None => None
    case Some(i) => Some(o[i].1)
  }

  /** Where a new array-index key goes: before the first key that must follow it. */
  function IndexSlot<V>(o: Props<V>, k: string): (p: nat)
    requires IsArrayIndex(k)
    ensures p <= |o|
  {
    if o == [] || !IsArrayIndex(o[0].0) || Index(k) < Index(o[0].0) then 0
    else 1 + IndexSlot(o[1..], k)
  }

  lemma {:induction false} IndexSlotSpec<V>(o: Props<V>, k: string)
    requires IsArrayIndex(k)
    ensures Slot(o, k, IndexSlot(o, k))
  {
    if !(o == [] || !IsArrayIndex(o[0].0) || Index(k) < Index(o[0].0)) {
      IndexSlotSpec(o[1..], k);
    }
  }

  /** `p` is where an array-index key `k` belongs in `o`. */
  ghost predicate Slot<V>(o: Props<V>, k: string, p: int)
    requires IsArrayIndex(k)
  {
    && 0 <= p <= |o|
    && (forall i | 0 <= i < p :: IsArrayIndex(o[i].0) && Index(o[i].0) <= Index(k))
    && (p < |o| ==> !IsArrayIndex(o[p].0) || Index(k) < Index(o[p].0))
  }

  /** `o[k] = v` on an ordinary object. */
  function Put<V>(o: Props<V>, k: string, v: V): Props<V> {
    match Find(o, k)
    case Some(i) => o[i := (k, v)]
    case None =>
      if IsArrayIndex(k) then
        var p := IndexSlot(o, k);
        o[..p] + [(k, v)] + o[p..]
      else o + [(k, v)]
  }

  /** The order JavaScript gives an object's keys, with every key present once. */
  ghost predicate Ordered<V>(o: Props<V>) {
    && (forall i, j | 0 <= i < j < |o| :: o[i].0 != o[j].0)
    && (forall i, j | 0 <= i < j < |o| && IsArrayIndex(o[j].0) ::
          IsArrayIndex(o[i].0) && Index(o[i].0) <= Index(o[j].0))
  }

  /** `Find` is fixed by any position that holds `k` after positions that do not. */
  lemma {:induction false} FindAt<V>(o: Props<V>, k: string, i: nat)
    requires i < |o| && o[i].0 == k
    requires forall j | 0 <= j < i :: o[j].0 != k
    ensures Find(o, k) == Some(i)
  {
    if i > 0 {
      FindAt(o[1..], k, i - 1);
    }
  }

  lemma {:induction false} FindAbsent<V>(o: Props<V>, k: string)
    requires forall j | 0 <= j < |o| :: o[j].0 != k
    ensures Find(o, k) == None
  {
    if o != [] {
      FindAbsent(o[1..], k);
    }
  }

  lemma GetPut<V>(o: Props<V>, k: string, v: V, k': string)
    ensures Get(Put(o, k, v), k') == if k' == k then Some(v) else Get(o, k')
  {
    var r := Put(o, k, v);
    FindSpec(o, k);
    FindSpec(o, k');
    match Find(o, k)
    case Some(i) =>
      assert r == o[i := (k, v)];
      if k' == k {
        FindAt(r, k, i);
      } else {
        match Find(o, k')
        case None => FindAbsent(r, k');
        case Some(j) => FindAt(r, k', j);
      }
    case None =>
      if IsArrayIndex(k) {
        var p := IndexSlot(o, k);
        GetSplice(o, p, k, v, k');
      } else {
        assert r == o[..|o|] + [(k, v)] + o[|o|..];
        GetSplice(o, |o|, k, v, k');
      }
  }

  lemma GetSplice<V>(o: Props<V>, p: nat, k: string, v: V, k': string)
    requires p <= |o|
    requires forall i | 0 <= i < |o| :: o[i].0 != k
    ensures Get(o[..p] + [(k, v)] + o[p..], k') == if k' == k then Some(v) else Get(o, k')
  {
    var r := o[..p] + [(k, v)] + o[p..];
    FindSpec(o, k');
    assert forall i | 0 <= i < p :: r[i] == o[i];
    assert r[p] == (k, v);
    assert forall i | p < i < |r| :: r[i] == o[i - 1];
    if k' == k {
      FindAt(r, k, p);
    } else {
      match Find(o, k')
      case None =>
        FindAbsent(r, k');
      case Some(i) =>
        if i < p {
          FindAt(r, k', i);
        } else {
          FindAt(r, k', i + 1);
        }
    }
  }

  /** Assigning to a key that exists keeps the key order; a new non-index key goes last. */
  lemma KeysPut<V>(o: Props<V>, k: string, v: V)
    ensures k in Keys(o) ==> Keys(Put(o, k, v)) == Keys(o)
    ensures k !in Keys(o) && !IsArrayIndex(k) ==> Keys(Put(o, k, v)) == Keys(o) + [k]
    ensures k !in Keys(o) ==> exists p | 0 <= p <= |o| :: Keys(Put(o, k, v)) == Keys(o)[..p] + [k] + Keys(o)[p..]
  {
    var r := Put(o, k, v);
    FindSpec(o, k);
    match Find(o, k)
    case Some(i) =>
      assert Keys(o)[i] == k;
      assert Keys(r) == Keys(o);
    case None =>
      assert k !in Keys(o);
      if IsArrayIndex(k) {
        var p := IndexSlot(o, k);
        assert Keys(r) == Keys(o)[..p] + [k] + Keys(o)[p..];
      } else {
        assert Keys(r) == Keys(o) + [k];
        assert Keys(r) == Keys(o)[..|o|] + [k] + Keys(o)[|o|..];
      }
  }

  /** `Put` keeps JavaScript's key order: the invariant of every object built from `[]`. */
  lemma PutOrdered<V>(o: Props<V>, k: string, v: V)
    requires Ordered(o)
    ensures Ordered(Put(o, k, v))
  {
    var r := Put(o, k, v);
    FindSpec(o, k);
    match Find(o, k)
    case Some(i) =>
      assert forall j | 0 <= j < |r| :: r[j].0 == o[j].0;
    case None =>
      if IsArrayIndex(k) {
        IndexSlotSpec(o, k);
      }
      var p := if IsArrayIndex(k) then IndexSlot(o, k) else |o|;
      assert r == o[..p] + [(k, v)] + o[p..];
      SpliceOrdered(o, p, k, v);
  }

  lemma SpliceOrdered<V>(o: Props<V>, p: nat, k: string, v: V)
    requires Ordered(o) && p <= |o|
    requires forall i | 0 <= i < |o| :: o[i].0 != k
    requires IsArrayIndex(k) ==> Slot(o, k, p)
    requires !IsArrayIndex(k) ==> p == |o|
    ensures Ordered(o[..p] + [(k, v)] + o[p..])
  {
    var r := o[..p] + [(k, v)] + o[p..];
    assert forall i | 0 <= i < p :: r[i] == o[i];
    assert r[p] == (k, v);
    assert forall i | p < i < |r| :: r[i] == o[i - 1];
    forall i, j | 0 <= i < j < |r| && IsArrayIndex(r[j].0)
      ensures IsArrayIndex(r[i].0) && Index(r[i].0) <= Index(r[j].0)
    {
      if j == p {
      } else if i == p {
        assert IsArrayIndex(o[p].0) && Index(o[p].0) <= Index(o[j - 1].0);
      } else if i < p && p < j {
        assert Index(o[i].0) <= Index(k);
      } else if p < i {
        assert r[i] == o[i - 1] && r[j] == o[j - 1];
      }
    }
  }
}
