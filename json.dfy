/**
 * `JSON.stringify` and `JSON.parse` restricted to what the request pipeline
 * stores in the `files` column: an array of file-name strings.
 * Stringify writes the compact form that `JSON.stringify(names)` produces;
 * Parse accepts exactly the arrays of strings without insignificant whitespace.
 */
module Json {
  import opened Wrappers

  // ---------------------------------------------------------------------------
  // Writing

  /** A lower-case hexadecimal digit. */
  function HexDigit(n: nat): char
    requires n < 16
  {
    if n < 10 then ('0' as int + n) as char else ('a' as int + n - 10) as char
  }

  /** How `JSON.stringify` writes one character inside a string literal. */
  function EscapeChar(c: char): string
  {
    if c == '"' then "\\\""
    else if c == '\\' then "\\\\"
    else if c == '\U{8}' then "\\b"
    else if c == '\U{C}' then "\\f"
    else if c == '\n' then "\\n"
    else if c == '\r' then "\\r"
    else if c == '\t' then "\\t"
    else if c < ' ' then "\\u00" + [HexDigit(c as int / 16), HexDigit(c as int % 16)]
    else [c]
  }

  function Escape(s: string): string
    decreases |s|
  {
    if |s| == 0 then "" else EscapeChar(s[0]) + Escape(s[1..])
  }

  /** A JSON string literal. */
  function Quote(s: string): string
  {
    "\"" + Escape(s) + "\""
  }

  /** The comma-separated literals of an array. */
  function Items(names: seq<string>): string
    decreases |names|
  {
    if |names| == 0 then ""
    else if |names| == 1 then Quote(names[0])
    else Quote(names[0]) + "," + Items(names[1..])
  }

  /** `JSON.stringify(names)` for an array of strings. */
  function Stringify(names: seq<string>): string
  {
    "[" + Items(names) + "]"
  }

  // ---------------------------------------------------------------------------
  // Reading

  function HexValue(c: char): Option<nat>
  {
    if '0' <= c <= '9' then Some(c as int - '0' as int)
    else if 'a' <= c <= 'f' then Some(c as int - 'a' as int + 10)
    else if 'A' <= c <= 'F' then Some(c as int - 'A' as int + 10)
    else None
  }

  /** The value of four hexadecimal digits. */
  function Hex4(u: string): Option<nat>
    requires |u| == 4
  {
    match (HexValue(u[0]), HexValue(u[1]), HexValue(u[2]), HexValue(u[3]))
    case (Some(a), Some(b), Some(c), Some(d)) => Some(((a * 16 + b) * 16 + c) * 16 + d)
    case _ => None
  }

  /**
   * The character an escape sequence stands for, given the text after the
   * backslash, and how many characters of that text the escape uses.
   * An escape of a UTF-16 surrogate has no character of its own here.
   */
  function Unescape(t: string): (r: Option<(char, nat)>)
    ensures r.Some? ==> 1 <= r.value.1 <= |t|
  {
    if |t| == 0 then None
    else if t[0] == '"' then Some(('"', 1))
    else if t[0] == '\\' then Some(('\\', 1))
    else if t[0] == '/' then Some(('/', 1))
    else if t[0] == 'b' then Some(('\U{8}', 1))
    else if t[0] == 'f' then Some(('\U{C}', 1))
    else if t[0] == 'n' then Some(('\n', 1))
    else if t[0] == 'r' then Some(('\r', 1))
    else if t[0] == 't' then Some(('\t', 1))
    else if t[0] == 'u' && |t| >= 5 then
      match Hex4(t[1..5])
      case Some(v) => if v < 0xD800 || 0xE000 <= v < 0x11_0000 then Some((v as char, 5)) else None
      case None => None
    else None
  }

  /**
   * Reads the body of a string literal up to and including its closing quote:
   * the decoded text and what follows the quote.
   */
  function ParseChars(t: string): (r: Option<(string, string)>)
    ensures r.Some? ==> |r.value.1| < |t|
    decreases |t|
  {
    if |t| == 0 then None
    else if t[0] == '"' then Some(("", t[1..]))
    else if t[0] == '\\' then
      match Unescape(t[1..])
      case None => None
      case Some((c, n)) =>
        match ParseChars(t[1 + n..])
        case None => None
        case Some((body, rest)) => Some(([c] + body, rest))
    else if t[0] < ' ' then None
    else
      match ParseChars(t[1..])
      case None => None
      case Some((body, rest)) => Some(([t[0]] + body, rest))
  }

  /** Reads `"..." ( , "..." )* ]` up to the end of the text. */
  function ParseItems(t: string): Option<seq<string>>
    decreases |t|
  {
    if |t| == 0 || t[0] != '"' then None
    else
      match ParseChars(t[1..])
      case None => None
      case Some((s, rest)) =>
        if rest == "]" then Some([s])
        else if |rest| > 0 && rest[0] == ',' then
          match ParseItems(rest[1..])
          case None => None
          case Some(more) => Some([s] + more)
        else None
  }

  /** `JSON.parse(text)` when the text is an array of strings; `None` where `JSON.parse` throws or yields something else. */
  function Parse(text: string): Option<seq<string>>
  {
    if text == "[]" then Some([])
    else if |text| >= 2 && text[0] == '[' then ParseItems(text[1..])
    else None
  }

  // ---------------------------------------------------------------------------
  // Round trip

  lemma HexRoundTrip(n: nat)
    requires n < 16
    ensures HexValue(HexDigit(n)) == Some(n)
  {
  }

  /** Reading one escaped character yields that character and resumes right after it. */
  lemma {:induction false} ParseEscapedChar(c: char, t: string)
    ensures ParseChars(EscapeChar(c) + t) ==
      match ParseChars(t)
      case None => None
      case Some((body, rest)) => Some(([c] + body, rest))
  {
    var e := EscapeChar(c);
    var s := e + t;
    if c == '"' || c == '\\' || c == '\U{8}' || c == '\U{C}' || c == '\n' || c == '\r' || c == '\t' {
      assert |e| == 2 && s[0] == '\\';
      assert Unescape(s[1..]) == Some((c, 1));
      assert s[2..] == t;
    } else if c < ' ' {
      var hi, lo := c as int / 16, c as int % 16;
      HexRoundTrip(hi);
      HexRoundTrip(lo);
      assert e == ['\\', 'u', '0', '0', HexDigit(hi), HexDigit(lo)];
      assert s[1..][1..5] == ['0', '0', HexDigit(hi), HexDigit(lo)];
      assert Hex4(s[1..][1..5]) == Some(c as int);
      assert Unescape(s[1..]) == Some((c, 5));
      assert s[6..] == t;
    } else {
      assert e == [c];
      assert s[1..] == t;
    }
  }

  /** Reading an escaped text followed by a closing quote yields the text and what follows the quote. */
  lemma {:induction false} ParseEscaped(s: string, t: string)
    ensures ParseChars(Escape(s) + "\"" + t) == Some((s, t))
    decreases |s|
  {
    if |s| == 0 {
      assert Escape(s) + "\"" + t == "\"" + t;
      assert ("\"" + t)[1..] == t;
    } else {
      ParseEscaped(s[1..], t);
      assert Escape(s) + "\"" + t == EscapeChar(s[0]) + (Escape(s[1..]) + "\"" + t);
      ParseEscapedChar(s[0], Escape(s[1..]) + "\"" + t);
      assert [s[0]] + s[1..] == s;
    }
  }

  lemma Regroup(q: string, e: string, tail: string)
    ensures q + e + q + tail == q + (e + q + tail)
  {
  }

  /** The first literal of an array body followed by the rest of the text. */
  lemma ItemsFirst(names: seq<string>, rest: string)
    requires |names| >= 1
    ensures Items(names) + rest ==
      "\"" + (Escape(names[0]) + "\"" + (if |names| == 1 then rest else "," + Items(names[1..]) + rest))
  {
    if |names| == 1 {
      Regroup("\"", Escape(names[0]), rest);
    } else {
      var tail := Items(names[1..]);
      assert Items(names) + rest == "\"" + Escape(names[0]) + "\"" + ("," + tail + rest);
      Regroup("\"", Escape(names[0]), "," + tail + rest);
    }
  }

  /** Reading a literal at the head of an array body. */
  lemma ParseItemsHead(q: string, more: string)
    ensures ParseItems("\"" + (Escape(q) + "\"" + more)) ==
      if more == "]" then Some([q])
      else if |more| > 0 && more[0] == ',' then
        match ParseItems(more[1..])
        case None => None
        case Some(tail) => Some([q] + tail)
      else None
  {
    var t := "\"" + (Escape(q) + "\"" + more);
    assert t[1..] == Escape(q) + "\"" + more;
    ParseEscaped(q, more);
  }

  lemma {:induction false} ParseItemsRoundTrip(names: seq<string>)
    requires |names| >= 1
    ensures ParseItems(Items(names) + "]") == Some(names)
    decreases |names|
  {
    ItemsFirst(names, "]");
    if |names| == 1 {
      ParseItemsHead(names[0], "]");
      assert names == [names[0]];
    } else {
      var more := "," + Items(names[1..]) + "]";
      ParseItemsHead(names[0], more);
      assert more[1..] == Items(names[1..]) + "]";
      ParseItemsRoundTrip(names[1..]);
      assert [names[0]] + names[1..] == names;
    }
  }

  /** `JSON.parse(JSON.stringify(names))` gives back the same names in the same order. */
  lemma {:induction false} ParseStringify(names: seq<string>)
    ensures Parse(Stringify(names)) == Some(names)
  {
    if |names| > 0 {
      ParseItemsRoundTrip(names);
      var text := Stringify(names);
      assert text[0] == '[';
      assert text[1..] == Items(names) + "]";
      assert text != "[]" by {
        assert text[1] == '"';
      }
    }
  }
}
