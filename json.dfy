/**
 * JSON values and `JSON.stringify`, which the application uses for request
 * bodies and for the `user` entry it keeps in the browser's local storage.
 * Numbers are integers (the instants and ids the model uses); members are
 * written in the order given, as `JSON.stringify` does for object keys.
 */
module Json {
  import opened Wrappers
  import Text

  datatype Json =
    | JNull
    | JBool(b: bool)
    | JNum(n: int)
    | JStr(s: string)
    | JArr(items: seq<Json>)
    | JObj(members: seq<(string, Json)>)

  /** A string member, or `null` when the value is absent. */
  function StrOrNull(s: Option<string>): Json {
    if s.Some? then JStr(s.value) else JNull
  }

  /** A number member, or `null` when the value is absent. */
  function NumOrNull(n: Option<int>): Json {
    if n.Some? then JNum(n.value) else JNull
  }

  /** The lower-case hexadecimal digit for `d`. */
  function HexDigit(d: nat): (c: char)
    requires d < 16
  {
    if d < 10 then ('0' as int + d) as char else ('a' as int + d - 10) as char
  }

  /** The value of a hexadecimal digit, upper or lower case. */
  function HexValue(c: char): Option<nat> {
    if '0' <= c <= '9' then Some(c as int - '0' as int)
    else if 'a' <= c <= 'f' then Some(c as int - 'a' as int + 10)
    else if 'A' <= c <= 'F' then Some(c as int - 'A' as int + 10)
    else None
  }

  /**
   * How `JSON.stringify` writes one character inside a string literal:
   * quote and backslash are escaped, the five control characters with a
   * short form use it, every other control character becomes `\u00XX`.
   */
  function EscapeChar(c: char): (r: string)
    ensures |r| >= 1 && (|r| == 1 <==> c >= ' ' && c != '"' && c != '\\')
  {
    if c == '"' then "\\\""
    else if c == '\\' then "\\\\"
    else if c == '\U{8}' then "\\b"
    else if c == '\t' then "\\t"
    else if c == '\n' then "\\n"
    else if c == '\U{C}' then "\\f"
    else if c == '\r' then "\\r"
    else if c < ' ' then "\\u00" + [HexDigit(c as int / 16), HexDigit(c as int % 16)]
    else [c]
  }

  function Escape(s: string): string {
    if s == "" then "" else EscapeChar(s[0]) + Escape(s[1..])
  }

  /** The text of a JSON string literal. */
  function Quote(s: string): (r: string)
    ensures |r| >= 2 && r[0] == '"' && r[|r| - 1] == '"'
  {
    "\"" + Escape(s) + "\""
  }

  /** The character a `\uXXXX` escape denotes, if it is a Unicode scalar value. */
  function CodePoint(a: char, b: char, c: char, d: char): Option<char> {
    var va, vb, vc, vd := HexValue(a), HexValue(b), HexValue(c), HexValue(d);
    if va.None? || vb.None? || vc.None? || vd.None? then None
    else
      var v := 4096 * va.value + 256 * vb.value + 16 * vc.value + vd.value;
      if v < 0xD800 || 0xE000 <= v < 0x11_0000 then Some(v as char) else None
  }

  /** Reads the body of a JSON string literal back: `None` when it is not well formed. */
  function Unescape(s: string): Option<string>
    decreases |s|
  {
    if s == "" then Some("")
    else if s[0] == '"' || s[0] < ' ' then None
    else if s[0] != '\\' then
      match Unescape(s[1..])
      case Some(t) => Some([s[0]] + t)
      case None => None
    else if |s| < 2 then None
    else
      var e := s[1];
      var simple :=
        if e == '"' then Some('"') else if e == '\\' then Some('\\') else if e == '/' then Some('/')
        else if e == 'b' then Some('\U{8}') else if e == 't' then Some('\t') else if e == 'n' then Some('\n')
        else if e == 'f' then Some('\U{C}') else if e == 'r' then Some('\r') else None;
      if simple.Some? then
        match Unescape(s[2..])
        case Some(t) => Some([simple.value] + t)
        case None => None
      else if e == 'u' && |s| >= 6 then
        match CodePoint(s[2], s[3], s[4], s[5])
        case None => None
        case Some(c) =>
          match Unescape(s[6..])
          case Some(t) => Some([c] + t)
          case None => None
      else None
  }

  lemma UnescapeChar(c: char, rest: string)
    ensures Unescape(EscapeChar(c) + rest) ==
      match Unescape(rest) case Some(t) => Some([c] + t) case None => None
  {
    var e := EscapeChar(c);
    var s := e + rest;
    if c < ' ' && c != '\U{8}' && c != '\t' && c != '\n' && c != '\U{C}' && c != '\r' {
      var hi, lo := c as int / 16, c as int % 16;
      assert s[..6] == ['\\', 'u', '0', '0', HexDigit(hi), HexDigit(lo)];
      assert s[6..] == rest;
      assert HexValue(HexDigit(hi)) == Some(hi);
      assert HexValue(HexDigit(lo)) == Some(lo);
      assert CodePoint('0', '0', HexDigit(hi), HexDigit(lo)) == Some(c);
    } else if |e| == 2 {
      assert s[2..] == rest;
    } else {
      assert s[1..] == rest;
    }
  }

  /** Escaping loses nothing: the escaped text reads back as the original string. */
  lemma {:induction false} UnescapeEscape(s: string)
    ensures Unescape(Escape(s)) == Some(s)
  {
    if s != "" {
      UnescapeEscape(s[1..]);
      UnescapeChar(s[0], Escape(s[1..]));
      assert [s[0]] + s[1..] == s;
    }
  }

  /** `JSON.stringify(j)`. */
  function Stringify(j: Json): (r: string)
    decreases j, 1
    ensures |r| >= 1
  {
    match j
    case JNull => "null"
    case JBool(b) => if b then "true" else "false"
    case JNum(n) => Text.IntToString(n)
    case JStr(s) => Quote(s)
    case JArr(items) => "[" + StringifyItems(items) + "]"
    case JObj(members) => "{" + StringifyMembers(members) + "}"
  }

  /** The comma-separated elements of an array. */
  function StringifyItems(items: seq<Json>): string
    decreases items, 0
  {
    if items == [] then ""
    else Stringify(items[0]) + (if |items| == 1 then "" else "," + StringifyItems(items[1..]))
  }

  /** The comma-separated `"key":value` members of an object. */
  function StringifyMembers(members: seq<(string, Json)>): string
    decreases members, 0
  {
    if members == [] then ""
    else
      var (key, value) := members[0];
      assert value < members[0];
      Quote(key) + ":" + Stringify(value)
      + (if |members| == 1 then "" else "," + StringifyMembers(members[1..]))
  }
}
