/** `JSON.stringify` of a string value: the quoted, escaped form, and the
    decoder that reads it back. */
module Json {
  import opened Text
  import opened Results

  function HexDigit(d: nat): char
    requires d < 16
  {
    if d < 10 then ('0' as int + d) as char else ('a' as int + d - 10) as char
  }

  function HexValue(c: char): Option<nat> {
    if '0' <= c <= '9' then Some(c as int - '0' as int)
    else if 'a' <= c <= 'f' then Some(c as int - 'a' as int + 10)
    else if 'A' <= c <= 'F' then Some(c as int - 'A' as int + 10)
    else None
  }

  lemma HexRoundTrip(d: nat)
    requires d < 16
    ensures HexValue(HexDigit(d)) == Some(d)
  {}

  /** The escape JSON.stringify writes for one character: the two-character
      escapes for `"`, `\` and five control characters, `\u00xx` for the
      other control characters, and the character itself otherwise. */
  function EscapeChar(c: char): String {
    if c == '"' then "\\\""
    else if c == '\\' then "\\\\"
    else if c == '\U{8}' then "\\b"
    else if c == '\U{C}' then "\\f"
    else if c == '\n' then "\\n"
    else if c == '\r' then "\\r"
    else if c == '\t' then "\\t"
    else if c < ' ' then "\\u00" + [HexDigit(c as int / 16), HexDigit(c as int % 16)]
    else [c]
  }

  function Escape(s: String): String {
    if s == [] then [] else EscapeChar(s[0]) + Escape(s[1..])
  }

  /** `JSON.stringify(s)` for a string `s`. */
  function Quote(s: String): String {
    "\"" + Escape(s) + "\""
  }

  /** Decoder for the body of a JSON string literal (between the quotes). */
  function Unescape(t: String): Option<String>
    decreases |t|
  {
    if t == [] then Some([])
    else if t[0] == '"' || t[0] < ' ' then None
    else if t[0] != '\\' then
      match Unescape(t[1..])
      case Some(rest) => Some([t[0]] + rest)
      case None => None
    else if |t| < 2 then None
    else
      var e := t[1];
      var simple :=
        if e == '"' then Some('"') else if e == '\\' then Some('\\') else if e == '/' then Some('/')
        else if e == 'b' then Some('\U{8}') else if e == 'f' then Some('\U{C}')
        else if e == 'n' then Some('\n') else if e == 'r' then Some('\r') else if e == 't' then Some('\t')
        else None;
      if simple.Some? then
        match Unescape(t[2..])
        case Some(rest) => Some([simple.value] + rest)
        case None => None
      else if e == 'u' && |t| >= 6 then
        match (HexValue(t[2]), HexValue(t[3]), HexValue(t[4]), HexValue(t[5]))
        case (Some(a), Some(b), Some(c), Some(d)) =>
          var code := ((a * 16 + b) * 16 + c) * 16 + d;
          if code < 0xD800 && code >= 0 then
            match Unescape(t[6..])
            case Some(rest) => Some([code as char] + rest)
            case None => None
          else None
        case _ => None
      else None
  }

  lemma UnescapeChar(c: char, rest: String)
    ensures Unescape(EscapeChar(c) + rest) ==
            match Unescape(rest) case Some(r) => Some([c] + r) case None => None
  {
    var t := EscapeChar(c) + rest;
    if c == '"' || c == '\\' || c == '\U{8}' || c == '\U{C}' || c == '\n' || c == '\r' || c == '\t' {
      assert t[2..] == rest;
    } else if c < ' ' {
      var hi, lo := c as int / 16, c as int % 16;
      HexRoundTrip(hi);
      HexRoundTrip(lo);
      assert t[2] == '0' && t[3] == '0' && t[4] == HexDigit(hi) && t[5] == HexDigit(lo);
      assert t[6..] == rest;
      assert ((0 * 16 + 0) * 16 + hi) * 16 + lo == c as int;
    } else {
      assert t[1..] == rest;
    }
  }

  /** Decoding the escaped form gives back the original string. */
  lemma {:induction false} UnescapeEscape(s: String)
    ensures Unescape(Escape(s)) == Some(s)
  {
    if s != [] {
      UnescapeEscape(s[1..]);
      UnescapeChar(s[0], Escape(s[1..]));
      assert [s[0]] + s[1..] == s;
    }
  }

  /** Reading the quoted literal back yields the string that was written. */
  lemma QuoteRoundTrip(s: String)
    ensures |Quote(s)| >= 2 && Quote(s)[0] == '"' && Quote(s)[|Quote(s)| - 1] == '"'
    ensures Unescape(Quote(s)[1..|Quote(s)| - 1]) == Some(s)
  {
    assert Quote(s)[1..|Quote(s)| - 1] == Escape(s);
    UnescapeEscape(s);
  }
}
