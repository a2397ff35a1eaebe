/** Go's `%q` verb on a string (`strconv.Quote`): the text between double
    quotes, with quote, backslash and every non-printable rune escaped.
    `Unquote` reads back the escapes `Quote` writes (a subset of Go's
    `strconv.Unquote` grammar), which proves that quoting loses nothing. */
module GoQuote {
  import opened Wrappers
  import Text

  /** Printable in the sense of Go's `unicode.IsPrint`, on the runes this
      model distinguishes: ASCII graphic characters and space; above ASCII,
      everything except the C1 controls, U+00A0, the soft hyphen U+00AD and
      the Unicode space separators. */
  predicate IsPrint(c: char) {
    (' ' <= c <= '~') || ('\U{A1}' <= c && c != '\U{AD}' && !Text.IsSpace(c))
  }

  /** The one-letter escapes of Go string literals, by the rune they stand
      for. */
  const ControlLetters: map<char, char> := map[
    '\U{7}' := 'a', '\U{8}' := 'b', '\U{C}' := 'f', '\n' := 'n',
    '\r' := 'r', '\t' := 't', '\U{B}' := 'v']

  /** The rune each one-letter escape stands for. */
  const LetterRunes: map<char, char> := map[
    'a' := '\U{7}', 'b' := '\U{8}', 'f' := '\U{C}', 'n' := '\n',
    'r' := '\r', 't' := '\t', 'v' := '\U{B}', '\\' := '\\', '"' := '"']

  function HexDigit(d: nat): char
    requires d < 16
  {
    if d < 10 then ('0' as int + d) as char else ('a' as int + d - 10) as char
  }

  predicate IsHex(c: char) {
    ('0' <= c <= '9') || ('a' <= c <= 'f') || ('A' <= c <= 'F')
  }

  function HexValue(c: char): (v: nat)
    requires IsHex(c)
    ensures v < 16
  {
    if '0' <= c <= '9' then c as int - '0' as int
    else if 'a' <= c <= 'f' then c as int - 'a' as int + 10
    else c as int - 'A' as int + 10
  }

  function Pow16(n: nat): (p: nat)
    ensures p > 0
  {
    if n == 0 then 1 else 16 * Pow16(n - 1)
  }

  /** The lowest `n` hexadecimal digits of `v`, most significant first. */
  function Hex(v: nat, n: nat): (r: string)
    ensures |r| == n
    ensures forall i :: 0 <= i < n ==> IsHex(r[i])
  {
    if n == 0 then "" else Hex(v / 16, n - 1) + [HexDigit(v % 16)]
  }

  /** The value of a string of hexadecimal digits. */
  function HexNumber(s: string): nat
    requires forall i :: 0 <= i < |s| ==> IsHex(s[i])
  {
    if |s| == 0 then 0 else HexNumber(s[..|s| - 1]) * 16 + HexValue(s[|s| - 1])
  }

  lemma {:induction false} HexRoundTrip(v: nat, n: nat)
    requires v < Pow16(n)
    ensures HexNumber(Hex(v, n)) == v
  {
    if n > 0 {
      var h := Hex(v, n);
      assert h[..|h| - 1] == Hex(v / 16, n - 1);
      assert v / 16 < Pow16(n - 1);
      HexRoundTrip(v / 16, n - 1);
      assert HexValue(HexDigit(v % 16)) == v % 16;
    }
  }

  /** How `%q` writes one rune. */
  function EscapeRune(c: char): (r: string)
    ensures |r| > 0
  {
    if c == '"' || c == '\\' then ['\\', c]
    else if IsPrint(c) then [c]
    else if c in ControlLetters then ['\\', ControlLetters[c]]
    else if c < '\U{80}' then "\\x" + Hex(c as int, 2)
    else "\\u" + Hex(c as int, 4)
  }

  /** Every rune of `s` escaped, without the surrounding quotes. */
  function EscapeAll(s: string): string {
    if |s| == 0 then "" else EscapeRune(s[0]) + EscapeAll(s[1..])
  }

  /** `%q` / `strconv.Quote`: the quoted body never holds a raw line
      break, so a quoted field is one line of text. */
  function Quote(s: string): (r: string)
    ensures |r| >= 2 && r[0] == '"' && r[|r| - 1] == '"'
    ensures '\n' !in r[1..|r| - 1]
  {
    EscapeAllIsOneLine(s);
    var body := EscapeAll(s);
    var r := "\"" + body + "\"";
    assert r[1..|r| - 1] == body;
    r
  }

  lemma {:induction false} EscapeAllIsOneLine(s: string)
    ensures '\n' !in EscapeAll(s)
  {
    if |s| > 0 {
      EscapeAllIsOneLine(s[1..]);
      EscapeRuneIsOneLine(s[0]);
    }
  }

  lemma EscapeRuneIsOneLine(c: char)
    ensures '\n' !in EscapeRune(c)
  {
    var r := EscapeRune(c);
    if c == '"' || c == '\\' || IsPrint(c) {
    } else if c in ControlLetters {
      assert r == ['\\', ControlLetters[c]];
    } else if c < '\U{80}' {
      assert r == "\\x" + Hex(c as int, 2);
    } else {
      assert r == "\\u" + Hex(c as int, 4);
    }
  }

  /** The escape at the start of `t`: the rune it stands for and how many
      runes it spans. The escapes read are `\a \b \f \n \r \t \v \\ \"`,
      `\xHH` below 0x80 and `\uHHHH` outside the surrogates; any other is a
      syntax error (`None`). */
  function ReadEscape(t: string): (r: Option<(char, nat)>)
    requires |t| > 0 && t[0] == '\\'
    ensures r.Some? ==> 2 <= r.value.1 <= |t|
  {
    if |t| < 2 then None
    else if t[1] in LetterRunes then Some((LetterRunes[t[1]], 2))
    else if t[1] == 'x' && |t| >= 4 && IsHex(t[2]) && IsHex(t[3]) then
      var v := HexNumber(t[2..4]);
      if v < 0x80 then Some((v as char, 4)) else None
    else if t[1] == 'u' && |t| >= 6 && IsHex(t[2]) && IsHex(t[3]) && IsHex(t[4]) && IsHex(t[5]) then
      var v := HexNumber(t[2..6]);
      assert v < 0x10000 by { HexNumberBound(t[2..6]); }
      if v < 0xD800 || 0xE000 <= v then Some((v as char, 6)) else None
    else None
  }

  function Prepend(c: char, r: Option<(string, string)>): Option<(string, string)> {
    match r
    case None => None
    case Some((text, rest)) => Some(([c] + text, rest))
  }

  /** Reads the body of a quoted literal up to its closing double quote:
      plain runes stand for themselves and escapes for their rune; the
      result is the text read and whatever follows the closing quote. A
      raw line break, a bad escape or a missing closing quote is a syntax
      error (`None`). */
  function ScanQuoted(t: string): Option<(string, string)>
    decreases |t|
  {
    if |t| == 0 then None
    else if t[0] == '"' then Some(("", t[1..]))
    else if t[0] == '\n' then None
    else if t[0] != '\\' then Prepend(t[0], ScanQuoted(t[1..]))
    else
      match ReadEscape(t)
      case None => None
      case Some((c, n)) => Prepend(c, ScanQuoted(t[n..]))
  }

  /** A double-quoted literal at the start of `t`, and what follows it. */
  function ReadQuoted(t: string): Option<(string, string)> {
    if |t| > 0 && t[0] == '"' then ScanQuoted(t[1..]) else None
  }

  lemma {:induction false} HexNumberBound(s: string)
    requires forall i :: 0 <= i < |s| ==> IsHex(s[i])
    ensures HexNumber(s) < Pow16(|s|)
  {
    if |s| > 0 {
      HexNumberBound(s[..|s| - 1]);
    }
  }

  /** `strconv.Unquote` on double-quoted literals: one literal and nothing
      after it. */
  function Unquote(q: string): Option<string> {
    match ReadQuoted(q)
    case Some((text, rest)) => if rest == "" then Some(text) else None
    case None => None
  }

  lemma EscapeRuneReadsBack(c: char, rest: string)
    ensures ScanQuoted(EscapeRune(c) + rest) == Prepend(c, ScanQuoted(rest))
  {
    if c == '"' || c == '\\' {
      LetterReadsBack(c, c, rest);
    } else if IsPrint(c) {
      var t := [c] + rest;
      assert t[1..] == rest;
    } else if c in ControlLetters {
      LetterReadsBack(ControlLetters[c], c, rest);
    } else if c < '\U{80}' {
      HexByteReadsBack(c, rest);
    } else {
      HexRuneReadsBack(c, rest);
    }
  }

  lemma LetterReadsBack(letter: char, c: char, rest: string)
    requires letter in LetterRunes && LetterRunes[letter] == c
    ensures ScanQuoted(['\\', letter] + rest) == Prepend(c, ScanQuoted(rest))
  {
    var t := ['\\', letter] + rest;
    assert t[0] == '\\' && t[1] == letter;
    assert ReadEscape(t) == Some((c, 2));
    assert t[2..] == rest;
  }

  lemma HexByteReadsBack(c: char, rest: string)
    requires c < '\U{80}'
    ensures ScanQuoted("\\x" + Hex(c as int, 2) + rest) == Prepend(c, ScanQuoted(rest))
  {
    var h := Hex(c as int, 2);
    var t := "\\x" + h + rest;
    assert t[0] == '\\' && t[1] == 'x';
    assert t[2..4] == h;
    assert t[4..] == rest;
    assert IsHex(t[2]) && IsHex(t[3]);
    HexRoundTrip(c as int, 2);
    assert ReadEscape(t) == Some((c, 4));
  }

  lemma HexRuneReadsBack(c: char, rest: string)
    requires '\U{80}' <= c && !IsPrint(c)
    ensures ScanQuoted("\\u" + Hex(c as int, 4) + rest) == Prepend(c, ScanQuoted(rest))
  {
    assert c as int < 0x10000;
    var h := Hex(c as int, 4);
    var t := "\\u" + h + rest;
    assert t[0] == '\\' && t[1] == 'u';
    assert t[2..6] == h;
    assert t[6..] == rest;
    assert IsHex(t[2]) && IsHex(t[3]) && IsHex(t[4]) && IsHex(t[5]);
    HexRoundTrip(c as int, 4);
    assert ReadEscape(t) == Some((c, 6));
  }

  lemma {:induction false} EscapeAllReadsBack(s: string, rest: string)
    ensures ScanQuoted(EscapeAll(s) + "\"" + rest) == Some((s, rest))
  {
    if |s| == 0 {
      assert EscapeAll(s) + "\"" + rest == "\"" + rest;
      assert ("\"" + rest)[1..] == rest;
    } else {
      EscapeAllReadsBack(s[1..], rest);
      EscapeRuneReadsBack(s[0], EscapeAll(s[1..]) + "\"" + rest);
      assert EscapeAll(s) + "\"" + rest == EscapeRune(s[0]) + (EscapeAll(s[1..]) + "\"" + rest);
      assert [s[0]] + s[1..] == s;
    }
  }

  /** A quoted literal is self-delimiting: reading it back from the front
      of any text yields the original string and leaves the text after it
      untouched. */
  lemma ReadQuotedQuote(s: string, rest: string)
    ensures ReadQuoted(Quote(s) + rest) == Some((s, rest))
  {
    EscapeAllReadsBack(s, rest);
    var body := EscapeAll(s) + "\"" + rest;
    assert Quote(s) + rest == "\"" + body;
    assert ("\"" + body)[1..] == body;
  }

  /** Round trip: `%q` loses nothing. */
  lemma UnquoteQuote(s: string)
    ensures Unquote(Quote(s)) == Some(s)
  {
    ReadQuotedQuote(s, "");
    assert Quote(s) + "" == Quote(s);
  }
}
