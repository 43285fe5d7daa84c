/**
 * The part of JSON the session store needs: the text `JSON.stringify`
 * writes for the stored user, a string parser that reads such text back,
 * and the JSON values `JSON.parse` can hand to the sidebar.
 *
 * `JSON.parse` itself is not modelled here; callers receive it as a
 * parameter. Numbers are integers only.
 */
module Json {
  import opened Wrappers

  /** A parsed JSON value. Object members keep their textual order. */
  datatype Json =
    | JNull
    | JBool(b: bool)
    | JNumber(n: int)
    | JString(s: string)
    | JArray(items: seq<Json>)
    | JObject(members: seq<(string, Json)>)

  /** JavaScript truthiness of a parsed value (`if (!user) ...`). */
  predicate Truthy(v: Json)
  {
    match v
    case JNull => false
    case JBool(b) => b
    case JNumber(n) => n != 0
    case JString(s) => s != ""
    case JArray(_) => true
    case JObject(_) => true
  }

  /** `v[key]` on an object: the last member with that name wins, as in `JSON.parse`. */
  function Member(v: Json, key: string): (r: Option<Json>)
    ensures r.Some? ==> v.JObject?
  {
    match v
    case JObject(members) => LastMember(members, key)
    case _ => None
  }

  function LastMember(members: seq<(string, Json)>, key: string): Option<Json>
    decreases |members|
  {
    if members == [] then None
    else if members[|members| - 1].0 == key then Some(members[|members| - 1].1)
    else LastMember(members[..|members| - 1], key)
  }

  function HexDigit(d: nat): (c: char)
    requires d < 16
  {
    if d < 10 then ('0' as int + d) as char else ('a' as int + d - 10) as char
  }

  function HexValue(c: char): Option<nat>
  {
    if '0' <= c <= '9' then Some(c as int - '0' as int)
    else if 'a' <= c <= 'f' then Some(c as int - 'a' as int + 10)
    else if 'A' <= c <= 'F' then Some(c as int - 'A' as int + 10)
    else None
  }

  /** How `JSON.stringify` writes one character inside a string literal. */
  function EscapeChar(c: char): string
  {
    if c == '"' then "\\\""
    else if c == '\\' then "\\\\"
    else if c == '\U{0008}' then "\\b"
    else if c == '\t' then "\\t"
    else if c == '\n' then "\\n"
    else if c == '\U{000C}' then "\\f"
    else if c == '\r' then "\\r"
    else if c < ' ' then "\\u00" + [HexDigit(c as int / 16), HexDigit(c as int % 16)]
    else [c]
  }

  function Escape(s: string): string
    decreases |s|
  {
    if s == [] then [] else EscapeChar(s[0]) + Escape(s[1..])
  }

  /** `JSON.stringify` of a string: the escaped characters between double quotes. */
  function Quote(s: string): string
  {
    "\"" + Escape(s) + "\""
  }

  /** The character an escape sequence stands for, and how many characters after the backslash it used. */
  function Unescape(t: string): Option<(char, nat)>
  {
    if t == [] then None
    else if t[0] == '"' then Some(('"', 1))
    else if t[0] == '\\' then Some(('\\', 1))
    else if t[0] == '/' then Some(('/', 1))
    else if t[0] == 'b' then Some(('\U{0008}', 1))
    else if t[0] == 't' then Some(('\t', 1))
    else if t[0] == 'n' then Some(('\n', 1))
    else if t[0] == 'f' then Some(('\U{000C}', 1))
    else if t[0] == 'r' then Some(('\r', 1))
    else if t[0] == 'u' && |t| >= 5 then
      match (HexValue(t[1]), HexValue(t[2]), HexValue(t[3]), HexValue(t[4]))
      case (Some(a), Some(b), Some(c), Some(d)) =>
        var code := ((a * 16 + b) * 16 + c) * 16 + d;
        // a lone surrogate half is not a character of this model
        if 0xD800 <= code < 0xE000 then None else Some((code as char, 5))
      case _ => None
    else None
  }

  /**
   * Reads the body of a JSON string literal up to its closing quote:
   * the decoded characters and the text after the quote.
   */
  function ParseStringBody(s: string): Option<(string, string)>
    decreases |s|
  {
    if s == [] then None
    else if s[0] == '"' then Some(("", s[1..]))
    else if s[0] == '\\' then
      match Unescape(s[1..])
      case None => None
      case Some((c, n)) =>
        match ParseStringBody(s[1 + n..])
        case None => None
        case Some((body, rest)) => Some(([c] + body, rest))
    else if s[0] < ' ' then None
    else
      match ParseStringBody(s[1..])
      case None => None
      case Some((body, rest)) => Some(([s[0]] + body, rest))
  }

  lemma EscapeCharReadsBack(c: char, t: string)
    ensures ParseStringBody(EscapeChar(c) + t) ==
      match ParseStringBody(t)
      case None => None
      case Some((body, rest)) => Some(([c] + body, rest))
  {
    var e := EscapeChar(c);
    if c == '"' || c == '\\' || c == '\U{0008}' || c == '\t' || c == '\n' || c == '\U{000C}' || c == '\r' {
      assert (e + t)[2..] == t;
    } else if c < ' ' {
      var hi, lo := c as int / 16, c as int % 16;
      assert hi == 0 || hi == 1;
      assert HexValue(HexDigit(hi)) == Some(hi);
      assert HexValue(HexDigit(lo)) == Some(lo);
      assert (e + t)[1..][1] == '0' && (e + t)[1..][2] == '0';
      assert (e + t)[1 + 5..] == t;
    } else {
      assert (e + t)[1..] == t;
    }
  }

  /** What `Quote` writes, the string parser reads back, leaving the text after it untouched. */
  lemma {:induction false} QuoteReadsBack(s: string, rest: string)
    ensures ParseStringBody(Escape(s) + "\"" + rest) == Some((s, rest))
    decreases |s|
  {
    if s == [] {
      assert Escape(s) + "\"" + rest == "\"" + rest;
    } else {
      var t := Escape(s[1..]) + "\"" + rest;
      assert Escape(s) + "\"" + rest == EscapeChar(s[0]) + t;
      QuoteReadsBack(s[1..], rest);
      EscapeCharReadsBack(s[0], t);
      assert [s[0]] + s[1..] == s;
    }
  }

  /** Strips a fixed piece of text from the front of `s`. */
  function Expect(literal: string, s: string): Option<string>
  {
    if literal <= s then Some(s[|literal|..]) else None
  }

  lemma ExpectReadsBack(literal: string, rest: string)
    ensures Expect(literal, literal + rest) == Some(rest)
  {
    assert literal <= literal + rest;
    assert (literal + rest)[|literal|..] == rest;
  }
}
