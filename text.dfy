/** String helpers the application takes from JavaScript: `String.prototype.trim`
    (used as the "blank input" test), `Array.prototype.join`, and the string
    quoting of `JSON.stringify`. Strings are sequences of Unicode scalar values. */
module Text {
  import opened Wrappers

  /** ECMAScript WhiteSpace and LineTerminator code points: what `trim` removes. */
  predicate IsWhitespace(c: char)
  {
    || c == '\t' || c == '\n' || c == '\U{000B}' || c == '\U{000C}' || c == '\r'
    || c == ' ' || c == '\U{00A0}' || c == '\U{1680}'
    || ('\U{2000}' <= c <= '\U{200A}')
    || c == '\U{2028}' || c == '\U{2029}' || c == '\U{202F}' || c == '\U{205F}'
    || c == '\U{3000}' || c == '\U{FEFF}'
  }

  predicate AllWhitespace(s: string)
  {
    forall i :: 0 <= i < |s| ==> IsWhitespace(s[i])
  }

  /** `s` with its leading whitespace removed. */
  function TrimStart(s: string): (r: string)
    ensures |r| <= |s| && r == s[|s| - |r|..]
    ensures AllWhitespace(s[..|s| - |r|])
    ensures r == [] || !IsWhitespace(r[0])
  {
    if s != [] && IsWhitespace(s[0]) then
      var r := TrimStart(s[1..]);
      assert s[..|s| - |r|] == [s[0]] + s[1..][..|s| - 1 - |r|];
      AllWhitespaceCons(s[0], s[1..][..|s| - 1 - |r|]);
      r
    else s
  }

  lemma AllWhitespaceCons(c: char, w: string)
    requires IsWhitespace(c) && AllWhitespace(w)
    ensures AllWhitespace([c] + w)
  {
    forall i | 0 <= i < |[c] + w|
      ensures IsWhitespace(([c] + w)[i])
    {
      if i > 0 {
        assert ([c] + w)[i] == w[i - 1];
      }
    }
  }

  /** `s` with its trailing whitespace removed. */
  function TrimEnd(s: string): (r: string)
    ensures |r| <= |s| && r == s[..|r|]
    ensures AllWhitespace(s[|r|..])
    ensures r == [] || !IsWhitespace(r[|r| - 1])
  {
    if s != [] && IsWhitespace(s[|s| - 1]) then TrimEnd(s[..|s| - 1]) else s
  }

  /** `s.trim()`. */
  function Trim(s: string): string
  {
    TrimEnd(TrimStart(s))
  }

  /** `!s.trim()`: the empty string is falsy, so a text is blank when trimming
      leaves nothing. */
  predicate IsBlank(s: string)
  {
    Trim(s) == []
  }

  /** A text is blank exactly when every one of its characters is whitespace. */
  lemma BlankIffAllWhitespace(s: string)
    ensures IsBlank(s) <==> AllWhitespace(s)
  {
    var t := TrimStart(s);
    if !AllWhitespace(s) {
      var k :| 0 <= k < |s| && !IsWhitespace(s[k]);
      assert t[k - (|s| - |t|)] == s[k];
    }
  }

  /** `parts.join(sep)`. */
  function Join(parts: seq<string>, sep: string): string
  {
    if |parts| == 0 then ""
    else if |parts| == 1 then parts[0]
    else parts[0] + sep + Join(parts[1..], sep)
  }

  /** With a non-empty separator, a join is empty only for no parts or a single
      empty part. */
  lemma {:induction false} JoinEmptyIff(parts: seq<string>, sep: string)
    requires sep != ""
    ensures Join(parts, sep) == "" <==> |parts| == 0 || (|parts| == 1 && parts[0] == "")
  {
    if |parts| > 1 {
      assert |Join(parts, sep)| >= |sep|;
    }
  }

  /** The hexadecimal digit for `n` in lower case, as `JSON.stringify` writes it. */
  function HexDigit(n: nat): (c: char)
    requires n < 16
    ensures IsHexDigit(c) && HexValue(c) == n
  {
    if n < 10 then '0' + n as char else 'a' + (n - 10) as char
  }

  predicate IsHexDigit(c: char)
  {
    ('0' <= c <= '9') || ('a' <= c <= 'f')
  }

  function HexValue(c: char): nat
    requires IsHexDigit(c)
  {
    if '0' <= c <= '9' then (c - '0') as nat else (c - 'a') as nat + 10
  }

  /** How `JSON.stringify` writes one character inside a string literal. */
  function EscapeChar(c: char): (r: string)
    ensures r != [] && (r[0] == '\\' <==> |r| > 1)
  {
    if c == '"' then "\\\""
    else if c == '\\' then "\\\\"
    else if c == '\U{0008}' then "\\b"
    else if c == '\U{000C}' then "\\f"
    else if c == '\n' then "\\n"
    else if c == '\r' then "\\r"
    else if c == '\t' then "\\t"
    else if c < ' ' then
      var n := c as nat;
      ['\\', 'u', '0', '0', HexDigit(n / 16), HexDigit(n % 16)]
    else [c]
  }

  function Escape(s: string): string
  {
    if s == [] then [] else EscapeChar(s[0]) + Escape(s[1..])
  }

  /** `JSON.stringify(s)` for a string `s`: the escaped text between double quotes. */
  function Quote(s: string): string
  {
    "\"" + Escape(s) + "\""
  }

  /** The reader's side of `EscapeChar`: the length of the escape at the front of `e`
      and the character it stands for, if `e` starts with a well-formed escape. */
  function UnescapeHead(e: string): (r: (nat, char))
    requires e != []
    ensures 1 <= r.0 <= |e|
  {
    if e[0] != '\\' || |e| < 2 then (1, e[0])
    else if e[1] == '"' then (2, '"')
    else if e[1] == '\\' then (2, '\\')
    else if e[1] == 'b' then (2, '\U{0008}')
    else if e[1] == 'f' then (2, '\U{000C}')
    else if e[1] == 'n' then (2, '\n')
    else if e[1] == 'r' then (2, '\r')
    else if e[1] == 't' then (2, '\t')
    else if e[1] == 'u' && |e| >= 6 && e[2] == '0' && e[3] == '0'
            && IsHexDigit(e[4]) && IsHexDigit(e[5]) && HexValue(e[4]) < 2 then
      (6, (HexValue(e[4]) * 16 + HexValue(e[5])) as char)
    else (1, e[0])
  }

  function Unescape(e: string): string
    decreases |e|
  {
    if e == [] then [] else
    var (n, c) := UnescapeHead(e);
    [c] + Unescape(e[n..])
  }

  lemma UnescapeHeadEscapeChar(c: char, rest: string)
    ensures UnescapeHead(EscapeChar(c) + rest) == (|EscapeChar(c)|, c)
  {
    if c < ' ' && c != '\U{0008}' && c != '\U{000C}' && c != '\n' && c != '\r' && c != '\t' {
      var n := c as nat;
      var e := EscapeChar(c) + rest;
      assert e[4] == HexDigit(n / 16) && e[5] == HexDigit(n % 16);
      assert (n / 16) * 16 + n % 16 == n;
    }
  }

  /** The escaping of `JSON.stringify` loses nothing: reading it back gives the
      original text. */
  lemma {:induction false} UnescapeEscape(s: string)
    ensures Unescape(Escape(s)) == s
  {
    if s != [] {
      var e := Escape(s);
      assert e == EscapeChar(s[0]) + Escape(s[1..]);
      UnescapeHeadEscapeChar(s[0], Escape(s[1..]));
      assert e[|EscapeChar(s[0])|..] == Escape(s[1..]);
      UnescapeEscape(s[1..]);
    }
  }

  /** Every '"' in an escaped text follows a backslash. */
  lemma {:induction false} EscapeHasNoBareQuote(s: string)
    ensures forall i :: 0 <= i < |Escape(s)| && Escape(s)[i] == '"' ==> i > 0 && Escape(s)[i - 1] == '\\'
  {
    if s != [] {
      EscapeHasNoBareQuote(s[1..]);
      var h, t := EscapeChar(s[0]), Escape(s[1..]);
      assert Escape(s) == h + t;
      forall i | 0 <= i < |h + t| && (h + t)[i] == '"'
        ensures i > 0 && (h + t)[i - 1] == '\\'
      {
        if i >= |h| {
          assert t[i - |h|] == '"';
        }
      }
    }
  }
  /** Where a JSON reader ends the body of a string literal `e`: at the first '"'
      that is not the second character of a backslash escape, or at the end of `e`
      when there is none. */
  function ScanEnd(e: string): (n: nat)
    ensures n <= |e|
    ensures n < |e| ==> e[n] == '"'
    decreases |e|
  {
    if e == [] then 0
    else if e[0] == '"' then 0
    else if e[0] == '\\' && |e| >= 2 then 2 + ScanEnd(e[2..])
    else 1 + ScanEnd(e[1..])
  }

  /** A character that is neither a quote nor a backslash is read on its own. */
  lemma ScanPlain(c: char, x: string)
    requires c != '"' && c != '\\'
    ensures ScanEnd([c] + x) == 1 + ScanEnd(x)
  {
    assert ([c] + x)[1..] == x;
  }

  /** The reader steps over a `\u00XX` escape as a whole. */
  lemma ScanUnicodeEscape(d1: char, d2: char, x: string)
    requires IsHexDigit(d1) && IsHexDigit(d2)
    ensures ScanEnd(['\\', 'u', '0', '0', d1, d2] + x) == 6 + ScanEnd(x)
  {
    var e := ['\\', 'u', '0', '0', d1, d2] + x;
    ScanPlain(d2, x);
    ScanPlain(d1, [d2] + x);
    ScanPlain('0', [d1] + ([d2] + x));
    ScanPlain('0', ['0'] + ([d1] + ([d2] + x)));
    assert e[2..] == ['0'] + (['0'] + ([d1] + ([d2] + x)));
  }

  /** The reader steps over one escaped character as a whole. */
  lemma ScanEscapeChar(c: char, x: string)
    ensures ScanEnd(EscapeChar(c) + x) == |EscapeChar(c)| + ScanEnd(x)
  {
    var h := EscapeChar(c);
    if c < ' ' && c != '\U{0008}' && c != '\U{000C}' && c != '\n' && c != '\r' && c != '\t' {
      var n := c as nat;
      ScanUnicodeEscape(HexDigit(n / 16), HexDigit(n % 16), x);
    } else if |h| == 1 {
      ScanPlain(c, x);
    } else {
      assert (h + x)[2..] == x;
    }
  }

  /** A quoted value cannot end its JSON string early: a reader scanning the
      escaped text followed by '"' stops at that '"', whatever comes after. */
  lemma {:induction false} EscapeEndsAtClosingQuote(s: string, rest: string)
    ensures ScanEnd(Escape(s) + "\"" + rest) == |Escape(s)|
  {
    if s == [] {
      assert Escape(s) + "\"" + rest == "\"" + rest;
    } else {
      var h, t := EscapeChar(s[0]), Escape(s[1..]);
      assert Escape(s) + "\"" + rest == h + (t + "\"" + rest);
      ScanEscapeChar(s[0], t + "\"" + rest);
      EscapeEndsAtClosingQuote(s[1..], rest);
    }
  }
  /** A value written with `Quote` after any prefix and before any tail is read
      back whole: the string reader started just past the opening '"' stops at the
      closing one, and what it read unescapes to the value. */
  lemma QuotedReadsBack(prefix: string, v: string, rest: string)
    ensures ScanEnd((prefix + Quote(v) + rest)[|prefix| + 1..]) == |Escape(v)|
    ensures Unescape((prefix + Quote(v) + rest)[|prefix| + 1..][..|Escape(v)|]) == v
  {
    var e := Escape(v);
    EscapeEndsAtClosingQuote(v, rest);
    UnescapeEscape(v);
    QuotedRegroup(prefix, e, rest);
  }

  /** A quoted body between a prefix and a tail, regrouped as the prefix with its
      opening '"' followed by the body, its closing '"' and the tail. */
  lemma QuotedRegroup(prefix: string, e: string, rest: string)
    ensures prefix + ("\"" + e + "\"") + rest == (prefix + "\"") + (e + ("\"" + rest))
    ensures e + "\"" + rest == e + ("\"" + rest)
  {
  }

  /** Five pieces of text, the last three regrouped. */
  lemma RegroupTail(a: string, b: string, c: string, d: string, x: string)
    ensures a + b + c + d + x == a + b + (c + d + x)
  {
  }

  /** `part` occurs in `s` as a contiguous piece. */
  predicate Contains(s: string, part: string)
  {
    exists k :: 0 <= k <= |s| - |part| && s[k..][..|part|] == part
  }

  /** A text contains its own tail. */
  lemma ContainsTail(a: string, b: string)
    ensures Contains(a + b, b)
  {
    assert (a + b)[|a|..][..|b|] == b;
  }

  /** Text added after a piece keeps the piece. */
  lemma ContainsExtend(s: string, part: string, t: string)
    requires Contains(s, part)
    ensures Contains(s + t, part)
  {
    var k :| 0 <= k <= |s| - |part| && s[k..][..|part|] == part;
    assert (s + t)[k..][..|part|] == s[k..][..|part|];
  }

  /** `s.indexOf(c)`: the first position of `c` in `s`, or -1. */
  function IndexOf(s: string, c: char): (i: int)
    ensures -1 <= i < |s|
    ensures i >= 0 ==> s[i] == c && c !in s[..i]
    ensures i < 0 ==> c !in s
  {
    if s == [] then -1
    else if s[0] == c then 0
    else
      var k := IndexOf(s[1..], c);
      assert s[1..][..k + 1] == s[1..k + 2] && s == [s[0]] + s[1..];
      if k < 0 then -1 else k + 1
  }

  /** `s.split(sep)[1]`: the piece between the first and the second separator (or
      the end), absent when `s` holds no separator. */
  function SecondField(s: string, sep: char): (r: Option<string>)
    ensures r.Some? <==> sep in s
    ensures r.Some? ==> sep !in r.value
  {
    var i := IndexOf(s, sep);
    if i < 0 then None
    else
      var rest := s[i + 1..];
      var j := IndexOf(rest, sep);
      Some(if j < 0 then rest else rest[..j])
  }

  /** The second field of `head,body` or `head,body,more` is `body`. */
  lemma SecondFieldOf(head: string, body: string, tail: string, sep: char)
    requires sep !in head && sep !in body
    requires tail == [] || tail[0] == sep
    ensures SecondField(head + [sep] + body + tail, sep) == Some(body)
  {
    var s := head + [sep] + body + tail;
    assert s[..|head|] == head && s[|head|] == sep;
    assert IndexOf(s, sep) == |head|;
    assert s[|head| + 1..] == body + tail;
    if tail == [] {
      assert body + tail == body;
    } else {
      assert (body + tail)[..|body|] == body && (body + tail)[|body|] == sep;
      assert IndexOf(body + tail, sep) == |body|;
    }
  }
}
