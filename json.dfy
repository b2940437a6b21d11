/**
 * `JSON.stringify` as far as the normalisers use it: the message that reports
 * two different `locator.pointer` values renders both as a JSON array.
 */
module Json {
  import opened Base
  import opened Props
  import opened Js

  function HexDigit(d: nat): char
    requires d < 16
  {
    "0123456789abcdef"[d]
  }

  function HexValue(c: char): Option<nat> {
    if '0' <= c <= '9' then Some(c as nat - '0' as nat)
    else if 'a' <= c <= 'f' then Some(c as nat - 'a' as nat + 10)
    else None
  }

  /**
   * How a string character is written: `"` and `\` and the characters below
   * U+0020 are escaped, the five with a short form by it and the others as
   * `\u00` and two lower-case hexadecimal digits.
   */
  function Escape(c: char): string {
    if c == '"' then "\\\""
    else if c == '\\' then "\\\\"
    else if c == '\U{8}' then "\\b"
    else if c == '\t' then "\\t"
    else if c == '\n' then "\\n"
    else if c == '\U{C}' then "\\f"
    else if c == '\r' then "\\r"
    else if c < ' ' then ['\\', 'u', '0', '0', HexDigit(c as nat / 16), HexDigit(c as nat % 16)]
    else [c]
  }

  function EscapeAll(s: string): string {
    if s == [] then [] else Escape(s[0]) + EscapeAll(s[1..])
  }

  /** A string as `JSON.stringify` writes it. */
  function Quote(s: string): (r: string)
    ensures |r| >= 2 && r[0] == '"' && r[|r| - 1] == '"'
  {
    "\"" + EscapeAll(s) + "\""
  }

  /** The character a short escape `\x` stands for. */
  function ShortEscape(x: char): Option<char> {
    if x == '"' then Some('"')
    else if x == '\\' then Some('\\')
    else if x == 'b' then Some('\U{8}')
    else if x == 't' then Some('\t')
    else if x == 'n' then Some('\n')
    else if x == 'f' then Some('\U{C}')
    else if x == 'r' then Some('\r')
    else None
  }

  /** Reads back the inside of a JSON string whose escapes are the ones `Escape` writes. */
  function Unescape(t: string): Option<string>
    decreases |t|
  {
    if t == [] then Some([])
    else if t[0] != '\\' then
      if t[0] == '"' || t[0] < ' ' then None
      else match Unescape(t[1..]) case None => None case Some(rest) => Some([t[0]] + rest)
    else if |t| >= 2 && ShortEscape(t[1]).Some? then
      match Unescape(t[2..]) case None => None case Some(rest) => Some([ShortEscape(t[1]).value] + rest)
    else if |t| >= 6 && t[1] == 'u' && t[2] == '0' && t[3] == '0' && HexValue(t[4]).Some? && HexValue(t[5]).Some? then
      var code := HexValue(t[4]).value * 16 + HexValue(t[5]).value;
      match Unescape(t[6..]) case None => None case Some(rest) => Some([code as char] + rest)
    else None
  }

  lemma HexRoundTrip(d: nat)
    requires d < 16
    ensures HexValue(HexDigit(d)) == Some(d)
  {
  }

  /** Reading back one written character and then the rest gives the character and then the rest. */
  lemma UnescapeOne(c: char, rest: string)
    ensures Unescape(Escape(c) + rest) == match Unescape(rest) case None => None case Some(u) => Some([c] + u)
  {
    var t := Escape(c) + rest;
    if c < ' ' && c != '\U{8}' && c != '\t' && c != '\n' && c != '\U{C}' && c != '\r' {
      var hi, lo := c as nat / 16, c as nat % 16;
      HexRoundTrip(hi);
      HexRoundTrip(lo);
      assert t[6..] == rest;
      assert (hi * 16 + lo) as char == c;
    } else if c == '"' || c == '\\' || c == '\U{8}' || c == '\t' || c == '\n' || c == '\U{C}' || c == '\r' {
      assert t[2..] == rest;
    } else {
      assert t[1..] == rest;
    }
  }

  /** Escaping loses nothing: the written string reads back as the original. */
  lemma {:induction false} UnescapeEscape(s: string)
    ensures Unescape(EscapeAll(s)) == Some(s)
  {
    if s != [] {
      UnescapeEscape(s[1..]);
      UnescapeOne(s[0], EscapeAll(s[1..]));
      assert [s[0]] + s[1..] == s;
    }
  }

  /**
   * `JSON.stringify(v)` with the objects in `stack` being written around it:
   * `None` when the value is left out (`undefined`, a function), a `TypeError`
   * when an object contains itself. `fuel` bounds the nesting; every level
   * enters a new object, so `|h|` levels are enough for any heap.
   */
  function JsonIn(h: Heap, v: Val, stack: set<nat>, fuel: nat): Result<Option<string>, Thrown>
    decreases fuel, 1
  {
    match v
    case Undefined => Ok(None)
    case Null => Ok(Some("null"))
    case Bool(b) => Ok(Some(if b then "true" else "false"))
    case Num(n) => Ok(Some(IntText(n)))
    case Str(s) => Ok(Some(Quote(s)))
    case Builtin(name) => if name == "__proto__" then Ok(Some("{}")) else Ok(None)
    case Ref(l) =>
      if l >= |h| then Ok(None)
      else if l in stack || fuel == 0 then Err(TypeError)
      else if h[l].isArray then
        var items :- JsonItems(h, l, stack + {l}, fuel, 0);
        Ok(Some("[" + items + "]"))
      else
        var members :- JsonMembers(h, h[l].props, stack + {l}, fuel);
        Ok(Some("{" + members + "}"))
  }

  /** The elements from index `i` on, `null` standing for what is left out. */
  function JsonItems(h: Heap, l: nat, stack: set<nat>, fuel: nat, i: nat): Result<string, Thrown>
    requires l < |h| && fuel > 0
    decreases fuel, 0, h[l].length - i
  {
    if i >= h[l].length then Ok("")
    else
      var item :- JsonIn(h, OwnRead(h[l], NatText(i)), stack, fuel - 1);
      var text := if item.Some? then item.value else "null";
      if i + 1 == h[l].length then Ok(text)
      else
        var more :- JsonItems(h, l, stack, fuel, i + 1);
        Ok(text + "," + more)
  }

  /** The members `"key":value` of an object in property order, leaving out those whose value is left out. */
  function JsonMembers(h: Heap, props: Props<Val>, stack: set<nat>, fuel: nat): Result<string, Thrown>
    requires fuel > 0
    decreases fuel, 0, |props|
  {
    if props == [] then Ok("")
    else
      var value :- JsonIn(h, props[0].1, stack, fuel - 1);
      var more :- JsonMembers(h, props[1..], stack, fuel);
      if value.None? then Ok(more)
      else
        var member := Quote(props[0].0) + ":" + value.value;
        Ok(if more == "" then member else member + "," + more)
  }

  /** `JSON.stringify([x, s])` for a string `s`. */
  function JsonPair(h: Heap, x: Val, s: string): (r: Result<string, Thrown>)
    ensures x.Str? ==> r == Ok("[" + Quote(x.s) + "," + Quote(s) + "]")
  {
    var first :- JsonIn(h, x, {}, |h|);
    Ok("[" + (if first.Some? then first.value else "null") + "," + Quote(s) + "]")
  }
}
