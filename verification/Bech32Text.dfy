/** The text form of Bech32 strings. */
module Bech32Text {
  import opened Common
  import opened Bech32

  const CHARSET := "qpzry9x8gf2tvdw0s3jn54khce6mua7l"
  const MAX_LENGTH := 90

  datatype Decoded = Decoded(encoding: Encoding, hrp: string, data: seq<Symbol>)

  function Lower(c: char): char
  {
    if 'A' <= c <= 'Z' then c + (32 as char) else c
  }

  function Upper(c: char): char
  {
    if 'a' <= c <= 'z' then c - (32 as char) else c
  }

  function LowerAll(s: string): (r: string)
    ensures |r| == |s| && forall i :: 0 <= i < |s| ==> r[i] == Lower(s[i])
  {
    seq(|s|, i requires 0 <= i < |s| => Lower(s[i]))
  }

  function UpperAll(s: string): string
  {
    seq(|s|, i requires 0 <= i < |s| => Upper(s[i]))
  }

  function CharOf(d: Symbol): char { CHARSET[d] }

  function CharsOf(data: seq<Symbol>): (r: string)
    ensures |r| == |data|
  {
    if data == [] then "" else [CharOf(data[0])] + CharsOf(data[1..])
  }

  /** CHARSET_INVERSE, or -1 for the KeyError. */
  function Position(c: char): int
  {
    match c
    case 'q' => 0 case 'p' => 1 case 'z' => 2 case 'r' => 3
    case 'y' => 4 case '9' => 5 case 'x' => 6 case '8' => 7
    case 'g' => 8 case 'f' => 9 case '2' => 10 case 't' => 11
    case 'v' => 12 case 'd' => 13 case 'w' => 14 case '0' => 15
    case 's' => 16 case '3' => 17 case 'j' => 18 case 'n' => 19
    case '5' => 20 case '4' => 21 case 'k' => 22 case 'h' => 23
    case 'c' => 24 case 'e' => 25 case '6' => 26 case 'm' => 27
    case 'u' => 28 case 'a' => 29 case '7' => 30 case 'l' => 31
    case _ => -1
  }

  function SymbolOfChar(c: char): Option<Symbol>
  {
    var n := Position(c);
    if 0 <= n < 32 then Some(n) else None
  }

  function SymbolsOf(s: string): (r: Option<seq<Symbol>>)
    ensures r.Some? ==> |r.value| == |s|
  {
    if s == "" then Some([])
    else match (SymbolOfChar(s[0]), SymbolsOf(s[1..]))
      case (Some(d), Some(ds)) => Some([d] + ds)
      case _ => None
  }

  /** rfind('1'), or None for -1. */
  function LastOne(s: string): (r: Option<nat>)
    ensures r.Some? ==> r.value < |s| && s[r.value] == '1' && forall k :: r.value < k < |s| ==> s[k] != '1'
    ensures r.None? ==> forall k :: 0 <= k < |s| ==> s[k] != '1'
  {
    if s == "" then None
    else if s[|s| - 1] == '1' then Some(|s| - 1)
    else LastOne(s[..|s| - 1])
  }

  /** bech32_encode */
  function Encode(e: Encoding, hrp: string, data: seq<Symbol>): string
  {
    hrp + "1" + CharsOf(data + Checksum(e, hrp, data))
  }

  predicate Sane(s: string) { forall i :: 0 <= i < |s| ==> 33 <= s[i] as int <= 126 }

  /** bech32_decode */
  function Decode(bech: string, ignoreLongLength: bool): Option<Decoded>
  {
    var lower := LowerAll(bech);
    if lower != bech && UpperAll(bech) != bech then None
    else match LastOne(bech)
      case None => None
      case Some(pos) =>
        if pos < 1 || pos + 7 > |bech| || (!ignoreLongLength && |bech| > MAX_LENGTH) then None
        else if !Sane(bech[..pos + 1]) then None
        else match SymbolsOf(lower[pos + 1..])
          case None => None
          case Some(data) =>
            match Verify(lower[..pos], data)
            case None => None
            case Some(e) => Some(Decoded(e, lower[..pos], data[..|data| - 6]))
  }

  // ---- Decoding what was encoded ----

  lemma LowPositions(d: Symbol)
    requires d < 16
    ensures Position(CHARSET[d]) == d
  {
    assert CHARSET[0] == 'q' && CHARSET[1] == 'p' && CHARSET[2] == 'z' && CHARSET[3] == 'r';
    assert CHARSET[4] == 'y' && CHARSET[5] == '9' && CHARSET[6] == 'x' && CHARSET[7] == '8';
    assert CHARSET[8] == 'g' && CHARSET[9] == 'f' && CHARSET[10] == '2' && CHARSET[11] == 't';
    assert CHARSET[12] == 'v' && CHARSET[13] == 'd' && CHARSET[14] == 'w' && CHARSET[15] == '0';
  }

  lemma HighPositions(d: Symbol)
    requires d >= 16
    ensures Position(CHARSET[d]) == d
  {
    assert CHARSET[16] == 's' && CHARSET[17] == '3' && CHARSET[18] == 'j' && CHARSET[19] == 'n';
    assert CHARSET[20] == '5' && CHARSET[21] == '4' && CHARSET[22] == 'k' && CHARSET[23] == 'h';
    assert CHARSET[24] == 'c' && CHARSET[25] == 'e' && CHARSET[26] == '6' && CHARSET[27] == 'm';
    assert CHARSET[28] == 'u' && CHARSET[29] == 'a' && CHARSET[30] == '7' && CHARSET[31] == 'l';
  }

  /** Only characters of the charset have a position, and none is an upper-case letter or the separator. */
  lemma CharAtPosition(c: char)
    requires Position(c) >= 0
    ensures Position(c) < 32 && CHARSET[Position(c)] == c
    ensures c != '1' && !('A' <= c <= 'Z')
  {
  }

  /** No character stands twice in the charset. */
  lemma PositionOfChar(d: Symbol)
    ensures Position(CHARSET[d]) == d
    ensures CHARSET[d] != '1' && !('A' <= CHARSET[d] <= 'Z')
  {
    hide Position;
    if d < 16 {
      LowPositions(d);
    } else {
      HighPositions(d);
    }
    CharAtPosition(CHARSET[d]);
  }

  lemma {:induction false} SymbolsOfChars(data: seq<Symbol>)
    ensures SymbolsOf(CharsOf(data)) == Some(data)
    ensures forall i :: 0 <= i < |data| ==> CharsOf(data)[i] != '1' && Lower(CharsOf(data)[i]) == CharsOf(data)[i]
    decreases |data|
  {
    hide Position;
    if data != [] {
      PositionOfChar(data[0]);
      SymbolsOfChars(data[1..]);
      assert CharsOf(data)[1..] == CharsOf(data[1..]);
      assert [data[0]] + data[1..] == data;
    }
  }

  lemma {:induction false} LastOneIs(s: string, p: nat)
    requires p < |s| && s[p] == '1' && forall k :: p < k < |s| ==> s[k] != '1'
    ensures LastOne(s) == Some(p)
    decreases |s|
  {
    if p < |s| - 1 {
      LastOneIs(s[..|s| - 1], p);
    }
  }

  /** A human-readable part of printable characters without upper-case letters. */
  predicate LowercaseHrp(hrp: string)
  {
    hrp != "" && Sane(hrp) && forall i :: 0 <= i < |hrp| ==> !('A' <= hrp[i] <= 'Z')
  }

  lemma LowerOfLower(s: string)
    requires forall i :: 0 <= i < |s| ==> Lower(s[i]) == s[i]
    ensures LowerAll(s) == s
  {
  }

  lemma ConcatParts(hrp: string, chars: string)
    ensures var text := hrp + "1" + chars;
            text[|hrp|] == '1' && text[..|hrp|] == hrp && text[|hrp| + 1..] == chars && text[..|hrp| + 1] == hrp + "1"
    ensures forall i :: 0 <= i < |hrp| ==> (hrp + "1" + chars)[i] == hrp[i]
    ensures forall i :: |hrp| < i <= |hrp| + |chars| ==> (hrp + "1" + chars)[i] == chars[i - |hrp| - 1]
  {
  }

  /** Where the parts of an encoded string stand. */
  lemma EncodedParts(hrp: string, chars: string)
    requires LowercaseHrp(hrp)
    requires forall i :: 0 <= i < |chars| ==> chars[i] != '1' && Lower(chars[i]) == chars[i]
    ensures var text := hrp + "1" + chars;
            LowerAll(text) == text && LastOne(text) == Some(|hrp|) && Sane(text[..|hrp| + 1])
  {
    var text := hrp + "1" + chars;
    ConcatParts(hrp, chars);
    LowerOfLower(text);
    LastOneIs(text, |hrp|);
  }

  lemma DecodeOfParts(text: string, pos: nat, e: Encoding, data: seq<Symbol>, ignoreLongLength: bool)
    requires LowerAll(text) == text && LastOne(text) == Some(pos) && pos >= 1 && Sane(text[..pos + 1])
    requires SymbolsOf(text[pos + 1..]) == Some(data) && |data| >= 6 && Verify(text[..pos], data) == Some(e)
    ensures Decode(text, ignoreLongLength) ==
            if ignoreLongLength || |text| <= MAX_LENGTH then Some(Decoded(e, text[..pos], data[..|data| - 6])) else None
  {
    hide Verify, UpperAll, LastOne, Sane, LowerAll, SymbolsOf;
  }

  /** bech32_decode inverts bech32_encode, under both encodings, unless the string is too long. */
  lemma DecodeOfEncode(e: Encoding, hrp: string, data: seq<Symbol>, ignoreLongLength: bool)
    requires LowercaseHrp(hrp)
    ensures var text := Encode(e, hrp, data);
            Decode(text, ignoreLongLength) ==
            if ignoreLongLength || |text| <= MAX_LENGTH then Some(Decoded(e, hrp, data)) else None
  {
    var all := data + Checksum(e, hrp, data);
    ChecksumVerifies(e, hrp, data);
    SymbolsOfChars(all);
    EncodedParts(hrp, CharsOf(all));
    hide Verify, Checksum, CharsOf, SymbolsOf, LowerAll, LastOne, Sane, Decode;
    ConcatParts(hrp, CharsOf(all));
    assert all[..|all| - 6] == data;
    DecodeOfParts(hrp + "1" + CharsOf(all), |hrp|, e, all, ignoreLongLength);
  }

  lemma {:induction false} CharsOfSymbols(s: string)
    requires SymbolsOf(s).Some?
    ensures CharsOf(SymbolsOf(s).value) == s
    decreases |s|
  {
    hide Position;
    if s != "" {
      CharAtPosition(s[0]);
      CharsOfSymbols(s[1..]);
      var ds := SymbolsOf(s).value;
      assert ds[1..] == SymbolsOf(s[1..]).value;
      assert s == [s[0]] + s[1..];
    }
  }

  lemma SplitAtOne(text: string, pos: nat)
    requires pos < |text| && text[pos] == '1'
    ensures var lower := LowerAll(text); lower == lower[..pos] + "1" + lower[pos + 1..]
  {
    var lower := LowerAll(text);
    assert lower[pos] == '1';
  }

  /** An accepted string in lower case: the human-readable part, the separator, the data and six more symbols. */
  lemma AcceptedParts(text: string, ignoreLongLength: bool) returns (sum: seq<Symbol>)
    requires Decode(text, ignoreLongLength).Some?
    ensures var d := Decode(text, ignoreLongLength).value;
            && LowerAll(text) == d.hrp + "1" + CharsOf(d.data + sum)
            && |sum| == 6 && Verify(d.hrp, d.data + sum) == Some(d.encoding)
  {
    hide Verify, UpperAll, LastOne, Sane, LowerAll, SymbolsOf, CharsOf;
    var lower := LowerAll(text);
    var pos := LastOne(text).value;
    var data := SymbolsOf(lower[pos + 1..]).value;
    CharsOfSymbols(lower[pos + 1..]);
    SplitAtOne(text, pos);
    sum := data[|data| - 6..];
    assert data == data[..|data| - 6] + sum;
  }

  /** The converse: every string that is accepted is, in lower case, the encoding of what was read from it. */
  lemma EncodeOfDecode(text: string, ignoreLongLength: bool)
    requires Decode(text, ignoreLongLength).Some?
    ensures var d := Decode(text, ignoreLongLength).value;
            Encode(d.encoding, d.hrp, d.data) == LowerAll(text)
  {
    hide Verify, Checksum, CharsOf, LowerAll, Decode;
    var sum := AcceptedParts(text, ignoreLongLength);
    var d := Decode(text, ignoreLongLength).value;
    ChecksumIsUnique(d.encoding, d.hrp, d.data, sum);
  }

  // ---- Which strings are accepted ----

  /** The separator and the printable characters are the same in either case. */
  lemma CaseKeeps(text: string)
    ensures forall i :: 0 <= i < |text| ==>
              (LowerAll(text)[i] == '1' <==> text[i] == '1')
              && (33 <= LowerAll(text)[i] as int <= 126 <==> 33 <= text[i] as int <= 126)
              && !('A' <= LowerAll(text)[i] <= 'Z')
  {
  }

  predicate OneCase(text: string) { LowerAll(text) == text || UpperAll(text) == text }

  /** A string that is, in lower case, the encoding of something, is read as that. */
  lemma DecodeOfEither(text: string, e: Encoding, hrp: string, data: seq<Symbol>, ignoreLongLength: bool)
    requires OneCase(text) && LowercaseHrp(hrp) && LowerAll(text) == Encode(e, hrp, data)
    requires ignoreLongLength || |text| <= 90
    ensures Decode(text, ignoreLongLength) == Some(Decoded(e, hrp, data))
  {
    var all := data + Checksum(e, hrp, data);
    ChecksumVerifies(e, hrp, data);
    SymbolsOfChars(all);
    ConcatParts(hrp, CharsOf(all));
    CaseKeeps(text);
    var n := |hrp|;
    var lower := LowerAll(text);
    hide Verify, Checksum, CharsOf, SymbolsOf, LowerAll, UpperAll, Encode;
    assert lower == hrp + "1" + CharsOf(all) by {
      EncodeIs(e, hrp, data);
    }
    LastOneIs(text, n);
    assert Sane(text[..n + 1]);
    assert all[..|all| - 6] == data && |all| >= 6;
    hide Sane, LastOne;
  }

  lemma EncodeIs(e: Encoding, hrp: string, data: seq<Symbol>)
    ensures Encode(e, hrp, data) == hrp + "1" + CharsOf(data + Checksum(e, hrp, data))
  {
  }

  lemma AcceptedIsSane(text: string, ignoreLongLength: bool)
    requires Decode(text, ignoreLongLength).Some?
    ensures OneCase(text) && LowercaseHrp(Decode(text, ignoreLongLength).value.hrp)
    ensures ignoreLongLength || |text| <= 90
  {
    hide Verify, SymbolsOf, UpperAll;
    CaseKeeps(text);
  }

  /** bech32_decode accepts exactly the strings, of one case and of at most 90 characters unless that is ignored, that
      are in lower case the encoding of something. */
  lemma AcceptedExactlyWhen(text: string, ignoreLongLength: bool)
    ensures Decode(text, ignoreLongLength).Some? <==>
              && OneCase(text) && (ignoreLongLength || |text| <= 90)
              && exists e, hrp, data :: LowercaseHrp(hrp) && LowerAll(text) == Encode(e, hrp, data)
  {
    hide Decode, OneCase, LowercaseHrp, LowerAll, Encode;
    if Decode(text, ignoreLongLength).Some? {
      AcceptedIsSane(text, ignoreLongLength);
      EncodeOfDecode(text, ignoreLongLength);
    }
    if OneCase(text) && (ignoreLongLength || |text| <= 90) {
      forall e, hrp, data | LowercaseHrp(hrp) && LowerAll(text) == Encode(e, hrp, data)
        ensures Decode(text, ignoreLongLength).Some?
      {
        DecodeOfEither(text, e, hrp, data, ignoreLongLength);
      }
    }
  }
}
