/**
 * JSON string literals as Newtonsoft.Json writes them by default: `"` and `\` are escaped,
 * backspace, form feed, newline, carriage return and tab get their short escapes, every other
 * control character and U+0085, U+2028 and U+2029 become `\u` with four lower-case hex digits,
 * and everything else is written as is. `ReadString` is a reader for string literals as
 * RFC 8259 (section 7) defines them, used as the reference the writer is checked against.
 */
module JsonText {
  import opened Wrappers

  function HexDigit(d: nat): (c: char)
    requires d < 16
    ensures HexValue(c) == Some(d)
  {
    if d < 10 then ('0' as int + d) as char else ('a' as int + d - 10) as char
  }

  /** The value of a hex digit in either case. */
  function HexValue(c: char): Option<nat> {
    if '0' <= c <= '9' then Some(c as int - '0' as int)
    else if 'a' <= c <= 'f' then Some(c as int - 'a' as int + 10)
    else if 'A' <= c <= 'F' then Some(c as int - 'A' as int + 10)
    else None
  }

  /** Four hex digits, most significant first. */
  function Hex4(n: nat): (s: string)
    requires n < 0x1_0000
    ensures |s| == 4
  {
    [HexDigit(n / 16 / 16 / 16), HexDigit(n / 16 / 16 % 16), HexDigit(n / 16 % 16), HexDigit(n % 16)]
  }

  /** The value of four hex digits; `None` if any is not a hex digit. */
  function Hex4Value(s: string): (r: Option<nat>)
    requires |s| == 4
    ensures r.Some? ==> r.value < 0x1_0000
  {
    match (HexValue(s[0]), HexValue(s[1]), HexValue(s[2]), HexValue(s[3]))
    case (Some(a), Some(b), Some(c), Some(d)) =>
      if a < 16 && b < 16 && c < 16 && d < 16 then Some(16 * (16 * (16 * a + b) + c) + d) else None
    case _ => None
  }

  lemma DivideHexDigit(q: nat, r: nat)
    requires r < 16
    ensures (16 * q + r) / 16 == q && (16 * q + r) % 16 == r
  {
  }

  /** Reading back four written hex digits gives the number. */
  lemma {:induction false} Hex4RoundTrip(n: nat)
    requires n < 0x1_0000
    ensures Hex4Value(Hex4(n)) == Some(n)
  {
    var s := Hex4(n);
    assert HexValue(s[0]) == Some(n / 16 / 16 / 16);
    assert HexValue(s[1]) == Some(n / 16 / 16 % 16);
    assert HexValue(s[2]) == Some(n / 16 % 16);
    assert HexValue(s[3]) == Some(n % 16);
  }

  /** The characters the writer spells with `\u`. */
  predicate NeedsUnicodeEscape(c: char) {
    (c as int < 0x20 && c !in "\U{0008}\U{000C}\n\r\t") || c == '\U{0085}' || c == '\U{2028}' || c == '\U{2029}'
  }

  /** How the writer spells one character inside a string literal. */
  function EscapeChar(c: char): (s: string)
    ensures |s| > 0 && s[0] != '"'
  {
    if c == '"' then "\\\""
    else if c == '\\' then "\\\\"
    else if c == '\U{0008}' then "\\b"
    else if c == '\U{000C}' then "\\f"
    else if c == '\n' then "\\n"
    else if c == '\r' then "\\r"
    else if c == '\t' then "\\t"
    else if NeedsUnicodeEscape(c) then "\\u" + Hex4(c as int)
    else [c]
  }

  function EscapeString(t: string): string {
    if t == [] then [] else EscapeChar(t[0]) + EscapeString(t[1..])
  }

  /** The `"…"` literal for a string. */
  function Quote(t: string): string {
    "\"" + EscapeString(t) + "\""
  }

  /** The character that escape letter `e` stands for, for the single-letter escapes. */
  function ShortEscape(e: char): Option<char> {
    match e
    case '"' => Some('"')
    case '\\' => Some('\\')
    case '/' => Some('/')
    case 'b' => Some('\U{0008}')
    case 'f' => Some('\U{000C}')
    case 'n' => Some('\n')
    case 'r' => Some('\r')
    case 't' => Some('\t')
    case _ => None
  }

  /**
   * One character of a string literal's body and how many characters spell it; `None` for a
   * raw control character, a broken escape, or a `\u` escape naming a surrogate (which a
   * Dafny `char` cannot hold).
   */
  function ReadChar(s: string): (r: Option<(char, nat)>)
    requires |s| > 0 && s[0] != '"'
    ensures r.Some? ==> 0 < r.value.1 <= |s|
  {
    if s[0] == '\\' then
      if |s| < 2 then None
      else if s[1] == 'u' then
        if |s| < 6 then None
        else match Hex4Value(s[2..6])
          case None => None
          case Some(n) => if 0xD800 <= n < 0xE000 then None else Some((n as char, 6))
      else match ShortEscape(s[1])
        case None => None
        case Some(c) => Some((c, 2))
    else if s[0] as int < 0x20 then None
    else Some((s[0], 1))
  }

  /** The body of a string literal up to its closing quote: the text and what follows the quote. */
  function ReadString(s: string): (r: Option<(string, string)>)
    ensures r.Some? ==> |r.value.1| < |s|
    decreases |s|
  {
    if s == [] then None
    else if s[0] == '"' then Some(([], s[1..]))
    else match ReadChar(s)
      case None => None
      case Some((c, n)) =>
        match ReadString(s[n..])
        case None => None
        case Some((t, rest)) => Some(([c] + t, rest))
  }

  /** Every character the writer spells is read back, consuming exactly its spelling. */
  lemma {:induction false} ReadEscapedChar(c: char, more: string)
    ensures ReadChar(EscapeChar(c) + more) == Some((c, |EscapeChar(c)|))
  {
    var s := EscapeChar(c) + more;
    if NeedsUnicodeEscape(c) && c != '"' && c != '\\' {
      assert s[2..6] == Hex4(c as int);
      Hex4RoundTrip(c as int);
    }
  }

  /** The writer and the reader agree: the body of a written literal reads back to the text. */
  /** Reading a literal body that starts with a readable character. */
  lemma ReadStringCons(s: string, c: char, n: nat, t: string, rest: string)
    requires |s| > 0 && s[0] != '"' && ReadChar(s) == Some((c, n))
    requires ReadString(s[n..]) == Some((t, rest))
    ensures ReadString(s) == Some(([c] + t, rest))
  {
  }

  lemma {:induction false} ReadEscapedString(t: string, rest: string)
    ensures ReadString(EscapeString(t) + "\"" + rest) == Some((t, rest))
    decreases |t|
  {
    var s := EscapeString(t) + "\"" + rest;
    if t == [] {
      assert s == "\"" + rest;
    } else {
      var e := EscapeChar(t[0]);
      var after := EscapeString(t[1..]) + "\"" + rest;
      assert s == e + after;
      ReadEscapedChar(t[0], after);
      assert s[|e|..] == after;
      ReadEscapedString(t[1..], rest);
      ReadStringCons(s, t[0], |e|, t[1..], rest);
      assert [t[0]] + t[1..] == t;
    }
  }
}
