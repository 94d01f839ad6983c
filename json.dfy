/**
 * The JSON text of an array of strings, as `JSON.stringify` writes it and as
 * `JSON.parse` reads it back. The pinned-sensor list is stored in this form.
 */
module Json {
  import opened Wrappers

  function HexDigit(d: nat): char
    requires d < 16
  {
    if d < 10 then ('0' as int + d) as char else ('a' as int + d - 10) as char
  }

  function HexValue(c: char): (r: Option<nat>)
    ensures r.Some? ==> r.value < 16
  {
    if '0' <= c <= '9' then Some(c as int - '0' as int)
    else if 'a' <= c <= 'f' then Some(c as int - 'a' as int + 10)
    else if 'A' <= c <= 'F' then Some(c as int - 'A' as int + 10)
    else None
  }

  lemma HexRoundTrip(d: nat)
    requires d < 16
    ensures HexValue(HexDigit(d)) == Some(d)
  {
  }

  /** How `JSON.stringify` writes one character inside a string literal. */
  function EscapeChar(c: char): (r: string)
    ensures |r| > 0
  {
    if c == '"' then "\\\""
    else if c == '\\' then "\\\\"
    else if c == '\U{8}' then "\\b"
    else if c == '\t' then "\\t"
    else if c == '\n' then "\\n"
    else if c == '\U{c}' then "\\f"
    else if c == '\r' then "\\r"
    else if c < ' ' then "\\u00" + [HexDigit(c as int / 16), HexDigit(c as int % 16)]
    else [c]
  }

  function Escape(s: string): string {
    if s == [] then "" else EscapeChar(s[0]) + Escape(s[1..])
  }

  /** `JSON.stringify(s)` for a string `s`. */
  function Quote(s: string): string {
    "\"" + Escape(s) + "\""
  }

  function StringifyElements(xs: seq<string>): string {
    if xs == [] then ""
    else if |xs| == 1 then Quote(xs[0])
    else Quote(xs[0]) + "," + StringifyElements(xs[1..])
  }

  /** `JSON.stringify(xs)` for an array of strings. */
  function Stringify(xs: seq<string>): string {
    "[" + StringifyElements(xs) + "]"
  }

  /** The character an escape sequence stands for, given the text after the
      backslash, and how many characters of that text the sequence takes. */
  function Unescape(t: string): (r: Option<(char, nat)>)
    ensures r.Some? ==> 1 <= r.value.1 <= |t|
  {
    if t == [] then None
    else if t[0] == '"' then Some(('"', 1))
    else if t[0] == '\\' then Some(('\\', 1))
    else if t[0] == '/' then Some(('/', 1))
    else if t[0] == 'b' then Some(('\U{8}', 1))
    else if t[0] == 't' then Some(('\t', 1))
    else if t[0] == 'n' then Some(('\n', 1))
    else if t[0] == 'f' then Some(('\U{c}', 1))
    else if t[0] == 'r' then Some(('\r', 1))
    else if t[0] == 'u' && |t| >= 5 then
      match Hex4(t[1..5])
      case Some(v) => if 0xD800 <= v < 0xE000 then None else Some((v as char, 5))
      case None => None
    else None
  }

  /** The value of four hexadecimal digits. */
  function Hex4(t: string): (r: Option<nat>)
    requires |t| == 4
    ensures r.Some? ==> r.value < 0x10000
  {
    if HexValue(t[0]).Some? && HexValue(t[1]).Some? && HexValue(t[2]).Some? && HexValue(t[3]).Some? then
      Some(((HexValue(t[0]).value * 16 + HexValue(t[1]).value) * 16 + HexValue(t[2]).value) * 16 + HexValue(t[3]).value)
    else None
  }

  /** Reads the rest of a string literal whose opening quote is already read:
      the decoded text and what follows the closing quote. */
  function ParseStringBody(s: string): (r: Option<(string, string)>)
    ensures r.Some? ==> |r.value.1| < |s|
    decreases |s|
  {
    if s == [] then None
    else if s[0] == '"' then Some(("", s[1..]))
    else if s[0] < ' ' then None
    else
      var step: Option<(char, nat)> := if s[0] == '\\' then Unescape(s[1..]) else Some((s[0], 0));
      match step
      case None => None
      case Some((c, n)) => Cons(c, ParseStringBody(s[1 + n..]))
  }

  /** `c` put in front of the decoded text of a successful read. */
  function Cons(c: char, r: Option<(string, string)>): (r': Option<(string, string)>)
    ensures r'.Some? <==> r.Some?
    ensures r.Some? ==> r'.value == ([c] + r.value.0, r.value.1)
  {
    match r
    case None => None
    case Some((d, rest)) => Some(([c] + d, rest))
  }

  function ParseString(s: string): (r: Option<(string, string)>)
    ensures r.Some? ==> |r.value.1| < |s|
  {
    if s != [] && s[0] == '"' then ParseStringBody(s[1..]) else None
  }

  function ParseElements(s: string): Option<seq<string>>
    decreases |s|
  {
    match ParseString(s)
    case None => None
    case Some((x, rest)) =>
      if rest == [] then Some([x])
      else if rest[0] == ',' then
        match ParseElements(rest[1..])
        case None => None
        case Some(xs) => Some([x] + xs)
      else None
  }

  /** `JSON.parse(s)` when `s` is the compact text of an array of strings;
      None for any other text. */
  function Parse(s: string): Option<seq<string>> {
    if |s| >= 2 && s[0] == '[' && s[|s| - 1] == ']' then
      var body := s[1..|s| - 1];
      if body == [] then Some([]) else ParseElements(body)
    else None
  }

  /** The control characters without a short escape sequence. */
  predicate NeedsUnicodeEscape(c: char) {
    c < ' ' && c !in {'\U{8}', '\t', '\n', '\U{c}', '\r'}
  }

  lemma ParseUnicodeEscape(c: char, t: string)
    requires NeedsUnicodeEscape(c)
    ensures ParseStringBody(EscapeChar(c) + t) == Cons(c, ParseStringBody(t))
  {
    var hi, lo := c as int / 16, c as int % 16;
    var e := EscapeChar(c);
    assert e == ['\\', 'u', '0', '0', HexDigit(hi), HexDigit(lo)];
    var s := e + t;
    var u := s[1..];
    assert u[..5] == ['u', '0', '0', HexDigit(hi), HexDigit(lo)];
    HexRoundTrip(hi);
    HexRoundTrip(lo);
    HexRoundTrip(0);
    assert Hex4(u[1..5]) == Some(hi * 16 + lo);
    assert hi * 16 + lo == c as int;
    assert Unescape(u) == Some((c, 5));
    assert s[6..] == t;
  }

  lemma ParseShortEscape(c: char, t: string)
    requires c == '"' || c == '\\' || c in {'\U{8}', '\t', '\n', '\U{c}', '\r'}
    ensures ParseStringBody(EscapeChar(c) + t) == Cons(c, ParseStringBody(t))
  {
    var s := EscapeChar(c) + t;
    assert s[2..] == t;
  }

  lemma ParsePlainChar(c: char, t: string)
    requires ' ' <= c && c != '"' && c != '\\'
    ensures ParseStringBody(EscapeChar(c) + t) == Cons(c, ParseStringBody(t))
  {
    var s := EscapeChar(c) + t;
    assert s[1..] == t;
  }

  /** Reading back one escaped character. */
  lemma ParseEscapedChar(c: char, t: string)
    ensures ParseStringBody(EscapeChar(c) + t) == Cons(c, ParseStringBody(t))
  {
    if NeedsUnicodeEscape(c) {
      ParseUnicodeEscape(c, t);
    } else if c < ' ' || c == '"' || c == '\\' {
      ParseShortEscape(c, t);
    } else {
      ParsePlainChar(c, t);
    }
  }

  lemma {:induction false} ParseQuoted(x: string, rest: string)
    ensures ParseStringBody(Escape(x) + "\"" + rest) == Some((x, rest))
    decreases |x|
  {
    if x == [] {
      assert Escape(x) + "\"" + rest == "\"" + rest;
    } else {
      assert Escape(x) + "\"" + rest == EscapeChar(x[0]) + (Escape(x[1..]) + "\"" + rest);
      ParseEscapedChar(x[0], Escape(x[1..]) + "\"" + rest);
      ParseQuoted(x[1..], rest);
      assert [x[0]] + x[1..] == x;
    }
  }

  /** What follows the first element of a non-empty stringified array body. */
  function RestAfterFirst(xs: seq<string>): string
    requires xs != []
  {
    if |xs| == 1 then "" else "," + StringifyElements(xs[1..])
  }

  /** The first element of a stringified array body reads back first. */
  lemma ParseFirstElement(xs: seq<string>)
    requires xs != []
    ensures ParseString(StringifyElements(xs)) == Some((xs[0], RestAfterFirst(xs)))
  {
    var s := StringifyElements(xs);
    var q := Escape(xs[0]) + "\"" + RestAfterFirst(xs);
    assert s == "\"" + q;
    assert s[1..] == q;
    ParseQuoted(xs[0], RestAfterFirst(xs));
  }

  lemma {:induction false} ParseStringified(xs: seq<string>)
    requires xs != []
    ensures ParseElements(StringifyElements(xs)) == Some(xs)
    decreases |xs|
  {
    ParseFirstElement(xs);
    if |xs| > 1 {
      var rest := RestAfterFirst(xs);
      ParseStringified(xs[1..]);
      assert rest[1..] == StringifyElements(xs[1..]);
      assert [xs[0]] + xs[1..] == xs;
    } else {
      assert xs == [xs[0]];
    }
  }

  /** `JSON.parse(JSON.stringify(xs))` gives back `xs`. */
  lemma {:induction false} StringifyRoundTrip(xs: seq<string>)
    ensures Parse(Stringify(xs)) == Some(xs)
    ensures Stringify(xs) != ""
  {
    var s := Stringify(xs);
    assert s[1..|s| - 1] == StringifyElements(xs);
    if xs != [] {
      ParseStringified(xs);
      assert StringifyElements(xs)[0] == '"';
    }
  }
}
