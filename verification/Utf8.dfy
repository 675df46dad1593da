/** UTF-8 (RFC 3629), as str.encode and bytes.decode do it: strict, and over characters that are not surrogates. */
module Utf8 {
  import opened Common

  /** A byte inside a character, behind its first one. */
  predicate IsContinuation(b: byte) { 0x80 <= b < 0xC0 }

  function EncodeChar(c: char): (e: Bytes)
    ensures 1 <= |e| <= 4 && !IsContinuation(e[0]) && forall i :: 1 <= i < |e| ==> IsContinuation(e[i])
  {
    var n := c as int;
    if n < 0x80 then [n]
    else if n < 0x800 then [0xC0 + n / 0x40, 0x80 + n % 0x40]
    else if n < 0x1_0000 then [0xE0 + n / 0x1000, 0x80 + n / 0x40 % 0x40, 0x80 + n % 0x40]
    else [0xF0 + n / 0x4_0000, 0x80 + n / 0x1000 % 0x40, 0x80 + n / 0x40 % 0x40, 0x80 + n % 0x40]
  }

  /** str.encode */
  function Encode(s: string): Bytes
  {
    if s == [] then [] else EncodeChar(s[0]) + Encode(s[1..])
  }

  /** How many bytes the character that starts with b takes; none starts with the other bytes. */
  function CharLength(b: byte): nat
  {
    if b < 0x80 then 1
    else if 0xC2 <= b < 0xE0 then 2
    else if 0xE0 <= b < 0xF0 then 3
    else if 0xF0 <= b < 0xF5 then 4
    else 0
  }

  /** The number that the first k bytes of a character stand for. */
  function CharNumber(b: Bytes, k: nat): int
    requires 1 <= k <= 4 && k <= |b|
  {
    if k == 1 then b[0] as int
    else if k == 2 then (b[0] as int - 0xC0) * 0x40 + (b[1] as int - 0x80)
    else if k == 3 then (b[0] as int - 0xE0) * 0x1000 + (b[1] as int - 0x80) * 0x40 + (b[2] as int - 0x80)
    else
      (b[0] as int - 0xF0) * 0x4_0000 + (b[1] as int - 0x80) * 0x1000
      + (b[2] as int - 0x80) * 0x40 + (b[3] as int - 0x80)
  }

  /** The smallest number that takes k bytes. */
  function Smallest(k: nat): nat
  {
    if k <= 1 then 0 else if k == 2 then 0x80 else if k == 3 then 0x800 else 0x1_0000
  }

  predicate IsScalar(n: int) { 0 <= n < 0xD800 || 0xE000 <= n < 0x11_0000 }

  /** The first character: truncated, overlong, surrogate and too large forms are refused. */
  function FirstChar(b: Bytes): (r: Option<char>)
    requires b != []
    ensures r.Some? ==> 1 <= CharLength(b[0]) <= |b|
  {
    var k := CharLength(b[0]);
    if k == 0 || |b| < k || !(forall i :: 1 <= i < k ==> IsContinuation(b[i])) then None
    else
      var n := CharNumber(b, k);
      if n < Smallest(k) || !IsScalar(n) then None else Some(n as char)
  }

  /** bytes.decode('utf-8'); Err is the UnicodeDecodeError. */
  function Decode(b: Bytes): Result<string>
    decreases |b|
  {
    if b == [] then Ok([])
    else match FirstChar(b)
      case None => Err
      case Some(c) => Prepend([c], Decode(b[CharLength(b[0])..]))
  }

  // ---- Round trip ----

  lemma NumberOfEncode(c: char)
    ensures CharNumber(EncodeChar(c), |EncodeChar(c)|) == c as int
    ensures CharLength(EncodeChar(c)[0]) == |EncodeChar(c)| && Smallest(|EncodeChar(c)|) <= c as int
  {
    var n := c as int;
    assert n == n / 0x40 * 0x40 + n % 0x40;
    assert n / 0x40 == n / 0x1000 * 0x40 + n / 0x40 % 0x40 by {
      assert n / 0x40 / 0x40 == n / 0x1000;
    }
    assert n / 0x1000 == n / 0x4_0000 * 0x40 + n / 0x1000 % 0x40 by {
      assert n / 0x1000 / 0x40 == n / 0x4_0000;
    }
  }

  lemma FirstOfEncode(c: char, rest: Bytes)
    ensures FirstChar(EncodeChar(c) + rest) == Some(c) && CharLength(EncodeChar(c)[0]) == |EncodeChar(c)|
  {
    hide EncodeChar, CharLength, Smallest;
    var e := EncodeChar(c);
    NumberOfEncode(c);
    assert CharNumber(e + rest, |e|) == CharNumber(e, |e|);
    assert forall i :: 1 <= i < |e| ==> (e + rest)[i] == e[i];
  }

  /** Decoding inverts encoding, in front of whatever follows. */
  lemma {:induction false} DecodeOfEncode(s: string, rest: Bytes)
    ensures Decode(Encode(s) + rest) == Prepend(s, Decode(rest))
    decreases |s|
  {
    hide FirstChar, EncodeChar, CharLength;
    if s == [] {
      assert [] + rest == rest;
      PrependEmpty(Decode(rest));
    } else {
      var e, tail := EncodeChar(s[0]), Encode(s[1..]) + rest;
      assert Encode(s) + rest == e + tail;
      assert (e + tail)[|e|..] == tail && (e + tail)[0] == e[0];
      FirstOfEncode(s[0], tail);
      DecodeOfEncode(s[1..], rest);
      PrependAppend([s[0]], s[1..], Decode(rest));
      assert [s[0]] + s[1..] == s;
    }
  }

  lemma LastDigit(high: nat, low: nat)
    requires low < 0x40
    ensures (high * 0x40 + low) / 0x40 == high && (high * 0x40 + low) % 0x40 == low
  {
  }

  lemma EncodeOfFirst(b: Bytes)
    requires b != [] && FirstChar(b).Some?
    ensures EncodeChar(FirstChar(b).value) == b[..CharLength(b[0])]
  {
    var k, n := CharLength(b[0]), CharNumber(b, CharLength(b[0]));
    if k == 2 {
      LastDigit(b[0] as int - 0xC0, b[1] as int - 0x80);
    } else if k == 3 {
      ThreeBytes(b);
    } else if k == 4 {
      FourBytes(b);
    }
  }

  lemma ThreeBytes(b: Bytes)
    requires b != [] && FirstChar(b).Some? && CharLength(b[0]) == 3
    ensures EncodeChar(FirstChar(b).value) == b[..3]
  {
    var n, high := CharNumber(b, 3), b[0] as int - 0xE0;
    LastDigit(high, b[1] as int - 0x80);
    LastDigit(high * 0x40 + (b[1] as int - 0x80), b[2] as int - 0x80);
    assert n / 0x1000 == n / 0x40 / 0x40;
  }

  lemma FourBytes(b: Bytes)
    requires b != [] && FirstChar(b).Some? && CharLength(b[0]) == 4
    ensures EncodeChar(FirstChar(b).value) == b[..4]
  {
    var n, high := CharNumber(b, 4), b[0] as int - 0xF0;
    var middle := high * 0x40 + (b[1] as int - 0x80);
    LastDigit(high, b[1] as int - 0x80);
    LastDigit(middle, b[2] as int - 0x80);
    LastDigit(middle * 0x40 + (b[2] as int - 0x80), b[3] as int - 0x80);
    assert n / 0x1000 == n / 0x40 / 0x40 && n / 0x4_0000 == n / 0x1000 / 0x40;
  }

  /** The converse: what is decoded is encoded the same way, so every text has one encoding. */
  lemma {:induction false} EncodeOfDecode(b: Bytes)
    requires Decode(b).Ok?
    ensures Encode(Decode(b).value) == b
    decreases |b|
  {
    hide FirstChar, EncodeChar, CharLength;
    if b != [] {
      var k := CharLength(b[0]);
      EncodeOfFirst(b);
      EncodeOfDecode(b[k..]);
      var s := Decode(b).value;
      assert s[1..] == Decode(b[k..]).value;
      assert b[..k] + b[k..] == b;
    }
  }

  // ---- Text cut off after some bytes ----

  lemma CutCharIsRefused(c: char, n: nat)
    requires 0 < n < |EncodeChar(c)|
    ensures Decode(EncodeChar(c)[..n]).Err?
  {
    FirstOfEncode(c, []);
    assert EncodeChar(c) + [] == EncodeChar(c);
    assert EncodeChar(c)[..n][0] == EncodeChar(c)[0];
  }

  /** The characters that lie completely in front of byte n. */
  function CharsBefore(s: string, n: nat): (k: nat)
    ensures k <= |s|
  {
    if s == [] || n < |EncodeChar(s[0])| then 0 else 1 + CharsBefore(s[1..], n - |EncodeChar(s[0])|)
  }

  /** Encoded text that is cut off decodes exactly if the cut is not inside a character, to the characters in front. */
  lemma {:induction false} DecodeOfCut(s: string, n: nat)
    requires n < |Encode(s)|
    ensures Decode(Encode(s)[..n])
         == if IsContinuation(Encode(s)[n]) then Err else Ok(s[..CharsBefore(s, n)])
    ensures CharsBefore(s, n) < |s|
    decreases |s|
  {
    hide FirstChar, EncodeChar, CharLength;
    var e, tail := EncodeChar(s[0]), Encode(s[1..]);
    if n < |e| {
      assert (e + tail)[..n] == e[..n] && (e + tail)[n] == e[n];
      if n > 0 {
        CutCharIsRefused(s[0], n);
      }
    } else {
      var cut := tail[..n - |e|];
      assert (e + tail)[..n] == e + cut && (e + tail)[n] == tail[n - |e|];
      assert (e + cut)[|e|..] == cut && (e + cut)[0] == e[0];
      FirstOfEncode(s[0], cut);
      DecodeOfCut(s[1..], n - |e|);
      assert [s[0]] + s[1..][..CharsBefore(s[1..], n - |e|)] == s[..CharsBefore(s, n)];
    }
  }
}
