/** Strings in JSON: what json.dumps writes, in ASCII, and what json.loads reads. */
module JsonString {
  import opened Common

  // ---- Hexadecimal digits ----

  function HexDigit(d: nat): char
    requires d < 16
  {
    if d < 10 then '0' + d as char else 'a' + (d - 10) as char
  }

  function FromHexDigit(c: char): (d: Option<nat>)
    ensures d.Some? ==> d.value < 16
  {
    if '0' <= c <= '9' then Some((c - '0') as nat)
    else if 'a' <= c <= 'f' then Some((c - 'a') as nat + 10)
    else if 'A' <= c <= 'F' then Some((c - 'A') as nat + 10)
    else None
  }

  lemma HexDigitRoundTrip(d: nat)
    requires d < 16
    ensures FromHexDigit(HexDigit(d)) == Some(d)
  {
  }

  /** A number below 0x10000 as four digits. */
  function Hex4(n: nat): (s: string)
    requires n < 0x1_0000
    ensures |s| == 4
  {
    [HexDigit(n / 0x1000), HexDigit(n / 0x100 % 16), HexDigit(n / 16 % 16), HexDigit(n % 16)]
  }

  function ReadHex4(t: string, i: nat): Option<nat>
  {
    if i + 4 > |t| then None
    else match (FromHexDigit(t[i]), FromHexDigit(t[i + 1]), FromHexDigit(t[i + 2]), FromHexDigit(t[i + 3])) {
      case (Some(a), Some(b), Some(c), Some(d)) => Some(a * 0x1000 + b * 0x100 + c * 16 + d)
      case _ => None
    }
  }

  lemma Hex4RoundTrip(t: string, i: nat, n: nat)
    requires n < 0x1_0000 && At(t, i, Hex4(n))
    ensures ReadHex4(t, i) == Some(n)
  {
    AtIndex(t, i, Hex4(n), 0);
    AtIndex(t, i, Hex4(n), 1);
    AtIndex(t, i, Hex4(n), 2);
    AtIndex(t, i, Hex4(n), 3);
    HexDigitRoundTrip(n / 0x1000);
    HexDigitRoundTrip(n / 0x100 % 16);
    HexDigitRoundTrip(n / 16 % 16);
    HexDigitRoundTrip(n % 16);
    assert n / 16 == n / 0x100 * 16 + n / 16 % 16 && n / 0x100 == n / 0x1000 * 16 + n / 0x100 % 16;
  }

  // ---- Characters ----

  predicate NeedsNoEscape(c: char) { ' ' <= c <= '~' && c != '"' && c != '\\' }

  const HIGH_SURROGATE: nat := 0xD800
  const LOW_SURROGATE: nat := 0xDC00

  /** The short escapes; none for the other characters. */
  function ShortEscape(c: char): string
  {
    if c == '"' then "\\\"" else if c == '\\' then "\\\\" else if c == '\n' then "\\n" else if c == '\r' then "\\r"
    else if c == '\t' then "\\t" else if c as int == 8 then "\\b" else if c as int == 12 then "\\f" else ""
  }

  /** ESCAPE_ASCII */
  function EscapedChar(c: char): string
  {
    if NeedsNoEscape(c) then [c]
    else if ShortEscape(c) != "" then ShortEscape(c)
    else if c as int < 0x1_0000 then "\\u" + Hex4(c as int)
    else
      var n := c as int - 0x1_0000;
      ("\\u" + Hex4(HIGH_SURROGATE + n / 0x400)) + ("\\u" + Hex4(LOW_SURROGATE + n % 0x400))
  }

  function SimpleEscape(c: char): Option<char>
  {
    if c == '"' || c == '\\' || c == '/' then Some(c)
    else if c == 'n' then Some('\n')
    else if c == 'r' then Some('\r')
    else if c == 't' then Some('\t')
    else if c == 'b' then Some(8 as char)
    else if c == 'f' then Some(12 as char)
    else None
  }

  /** The character escaped by a backslash in front of i. Two surrogates stand for one character; a lone one is
      refused. */
  function ReadEscape(t: string, i: nat): (r: Result<Read<char>>)
    ensures r.Ok? ==> i < r.value.next <= |t|
  {
    if i >= |t| then Err
    else if t[i] != 'u' then
      (match SimpleEscape(t[i]) case Some(c) => Ok(Read(c, i + 1)) case None => Err)
    else match ReadHex4(t, i + 1) {
      case None => Err
      case Some(n) =>
        if n < HIGH_SURROGATE || 0xE000 <= n < 0x1_0000 then Ok(Read(n as char, i + 5))
        else if LOW_SURROGATE <= n || !At(t, i + 5, "\\u") then Err
        else match ReadHex4(t, i + 7) {
          case None => Err
          case Some(m) =>
            if LOW_SURROGATE <= m < 0xE000 && n < LOW_SURROGATE then
              Ok(Read((0x1_0000 + (n - HIGH_SURROGATE) * 0x400 + (m - LOW_SURROGATE)) as char, i + 11))
            else Err
        }
    }
  }

  /** One character inside a string; control characters are refused. */
  function ReadChar(t: string, i: nat): (r: Result<Read<char>>)
    ensures r.Ok? ==> i < r.value.next <= |t|
  {
    if i >= |t| || t[i] < ' ' then Err
    else if t[i] == '\\' then ReadEscape(t, i + 1)
    else Ok(Read(t[i], i + 1))
  }

  lemma ReadCharOfEscaped(t: string, i: nat, c: char)
    requires At(t, i, EscapedChar(c))
    ensures ReadChar(t, i) == Ok(Read(c, i + |EscapedChar(c)|)) && t[i] != '"'
  {
    hide Hex4, ReadHex4, At;
    var x, n := EscapedChar(c), c as int;
    AtIndex(t, i, x, 0);
    if n >= 0x1_0000 {
      ReadPair(t, i, n - 0x1_0000);
    } else if !NeedsNoEscape(c) && ShortEscape(c) == "" {
      ReadUnicode(t, i, n);
    } else if !NeedsNoEscape(c) {
      AtIndex(t, i, x, 1);
    }
  }

  lemma ReadUnicode(t: string, i: nat, n: nat)
    requires (n < HIGH_SURROGATE || 0xE000 <= n < 0x1_0000) && At(t, i, "\\u" + Hex4(n))
    ensures ReadChar(t, i) == Ok(Read(n as char, i + 6))
  {
    AtSplit(t, i, "\\u", Hex4(n));
    AtIndex(t, i, "\\u", 0);
    AtIndex(t, i, "\\u", 1);
    Hex4RoundTrip(t, i + 2, n);
    hide Hex4, ReadHex4, At;
  }

  lemma ReadPair(t: string, i: nat, n: nat)
    requires n < 0x10_0000
    requires At(t, i, ("\\u" + Hex4(HIGH_SURROGATE + n / 0x400)) + ("\\u" + Hex4(LOW_SURROGATE + n % 0x400)))
    ensures ReadChar(t, i) == Ok(Read((0x1_0000 + n) as char, i + 12))
  {
    var high, low := HIGH_SURROGATE + n / 0x400, LOW_SURROGATE + n % 0x400;
    AtSplit(t, i, "\\u" + Hex4(high), "\\u" + Hex4(low));
    AtSplit(t, i, "\\u", Hex4(high));
    AtSplit(t, i + 6, "\\u", Hex4(low));
    AtIndex(t, i, "\\u", 0);
    AtIndex(t, i, "\\u", 1);
    Hex4RoundTrip(t, i + 2, high);
    Hex4RoundTrip(t, i + 8, low);
    hide Hex4, ReadHex4, At;
  }

  // ---- Strings ----

  function Escaped(s: string): string
  {
    if s == "" then "" else EscapedChar(s[0]) + Escaped(s[1..])
  }

  function Quoted(s: string): string { "\"" + (Escaped(s) + "\"") }

  /** The rest of a string from i on, and the position behind its closing quote. */
  function ReadString(t: string, i: nat): (r: Result<Read<string>>)
    requires i <= |t|
    ensures r.Ok? ==> i < r.value.next <= |t|
    decreases |t| - i
  {
    if i < |t| && t[i] == '"' then Ok(Read("", i + 1))
    else match ReadChar(t, i) {
      case Err => Err
      case Ok(Read(c, n)) =>
        match ReadString(t, n) {
          case Err => Err
          case Ok(Read(s, e)) => Ok(Read([c] + s, e))
        }
    }
  }

  lemma {:induction false} ReadStringOfQuoted(t: string, i: nat, s: string)
    requires i <= |t| && At(t, i, Escaped(s) + "\"")
    ensures ReadString(t, i) == Ok(Read(s, i + |Escaped(s)| + 1))
    decreases |s|
  {
    hide ReadChar, EscapedChar, At;
    if s == "" {
      assert Escaped(s) + "\"" == "\"";
      AtIndex(t, i, "\"", 0);
    } else {
      var x := EscapedChar(s[0]);
      assert Escaped(s) + "\"" == x + (Escaped(s[1..]) + "\"");
      AtSplit(t, i, x, Escaped(s[1..]) + "\"");
      ReadCharOfEscaped(t, i, s[0]);
      ReadStringOfQuoted(t, i + |x|, s[1..]);
      assert [s[0]] + s[1..] == s;
    }
  }

  /** What is written is ASCII, whatever is in the string. */
  lemma {:induction false} EscapedIsAscii(s: string)
    ensures forall i :: 0 <= i < |Escaped(s)| ==> ' ' <= Escaped(s)[i] <= '~'
  {
    if s != "" {
      EscapedIsAscii(s[1..]);
    }
  }

  // ---- What a reader depends on ----

  /** The texts agree before position j. */
  predicate SameUpTo(t: string, u: string, j: nat)
  {
    j <= |t| && j <= |u| && t[..j] == u[..j]
  }

  lemma SameUpToIndex(t: string, u: string, j: nat, k: nat)
    requires SameUpTo(t, u, j) && k < j
    ensures j <= |t| && j <= |u| && t[k] == u[k]
  {
    assert t[..j][k] == t[k] && u[..j][k] == u[k];
  }

  lemma SameUpToLess(t: string, u: string, j: nat, k: nat)
    requires SameUpTo(t, u, j) && k <= j
    ensures SameUpTo(t, u, k)
  {
    assert t[..j][..k] == t[..k] && u[..j][..k] == u[..k];
  }

  lemma SameSlice(t: string, u: string, i: nat, e: nat, j: nat)
    requires SameUpTo(t, u, j) && i <= e <= j
    ensures t[i..e] == u[i..e]
  {
    assert t[..j][i..e] == t[i..e] && u[..j][i..e] == u[i..e];
  }

  lemma ReadHex4Same(t: string, u: string, i: nat, j: nat)
    requires i + 4 <= j && SameUpTo(t, u, j)
    ensures ReadHex4(u, i) == ReadHex4(t, i)
  {
    SameUpToIndex(t, u, j, i);
    SameUpToIndex(t, u, j, i + 1);
    SameUpToIndex(t, u, j, i + 2);
    SameUpToIndex(t, u, j, i + 3);
  }

  lemma ReadCharSame(t: string, u: string, i: nat, j: nat)
    requires ReadChar(t, i).Ok? && ReadChar(t, i).value.next <= j && SameUpTo(t, u, j)
    ensures ReadChar(u, i) == ReadChar(t, i)
  {
    SameUpToIndex(t, u, j, i);
    if t[i] == '\\' {
      SameUpToIndex(t, u, j, i + 1);
      if t[i + 1] == 'u' {
        ReadHex4Same(t, u, i + 2, j);
        if ReadChar(t, i).value.next == i + 12 {
          SameSlice(t, u, i + 6, i + 8, j);
          ReadHex4Same(t, u, i + 8, j);
        }
      }
    }
  }

  lemma {:induction false} ReadStringSame(t: string, u: string, i: nat, j: nat)
    requires i <= |t| && ReadString(t, i).Ok? && ReadString(t, i).value.next <= j && SameUpTo(t, u, j)
    ensures i <= |u| && ReadString(u, i) == ReadString(t, i)
    decreases |t| - i
  {
    hide ReadChar, SameUpTo;
    SameUpToIndex(t, u, j, i);
    if t[i] != '"' {
      ReadCharSame(t, u, i, j);
      ReadStringSame(t, u, ReadChar(t, i).value.next, j);
    }
  }
}
