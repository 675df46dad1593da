/** Base-58 and base-43 text of byte strings. */
module BaseCodec {
  import opened Common

  // ---- The alphabets ----

  datatype Base = Of58 | Of43

  function Radix(b: Base): nat { if b.Of58? then 58 else 43 }

  /** 1-9, A-Z without I and O, a-z without l */
  function Char58(d: nat): char
    requires d < 58
  {
    if d < 9 then '1' + d as char
    else if d < 17 then 'A' + (d - 9) as char
    else if d < 22 then 'J' + (d - 17) as char
    else if d < 33 then 'P' + (d - 22) as char
    else if d < 44 then 'a' + (d - 33) as char
    else 'm' + (d - 44) as char
  }

  /** 0-9, A-Z, $ * + - . / : */
  function Char43(d: nat): char
    requires d < 43
  {
    if d < 10 then '0' + d as char
    else if d < 36 then 'A' + (d - 10) as char
    else match d
      case 36 => '$'
      case 37 => '*'
      case 38 => '+'
      case 39 => '-'
      case 40 => '.'
      case 41 => '/'
      case _ => ':'
  }

  function CharOf(b: Base, d: nat): char
    requires d < Radix(b)
  {
    if b.Of58? then Char58(d) else Char43(d)
  }

  /** The inverse dictionaries, or -1 for the KeyError. */
  function Digit58(c: char): int
  {
    if '1' <= c <= '9' then c as int - '1' as int
    else if 'A' <= c <= 'H' then c as int - 'A' as int + 9
    else if 'J' <= c <= 'N' then c as int - 'J' as int + 17
    else if 'P' <= c <= 'Z' then c as int - 'P' as int + 22
    else if 'a' <= c <= 'k' then c as int - 'a' as int + 33
    else if 'm' <= c <= 'z' then c as int - 'm' as int + 44
    else -1
  }

  function Digit43(c: char): int
  {
    if '0' <= c <= '9' then c as int - '0' as int
    else if 'A' <= c <= 'Z' then c as int - 'A' as int + 10
    else match c
      case '$' => 36
      case '*' => 37
      case '+' => 38
      case '-' => 39
      case '.' => 40
      case '/' => 41
      case ':' => 42
      case _ => -1
  }

  function DigitOf(b: Base, c: char): int { if b.Of58? then Digit58(c) else Digit43(c) }

  lemma DigitOfChar(b: Base, d: nat)
    requires d < Radix(b)
    ensures DigitOf(b, CharOf(b, d)) == d
  {
  }

  lemma CharOfDigit(b: Base, c: char)
    requires DigitOf(b, c) >= 0
    ensures DigitOf(b, c) < Radix(b) && CharOf(b, DigitOf(b, c)) == c
  {
  }

  // ---- Positional notation, highest digit first ----

  function Digits(n: nat, radix: nat): (ds: seq<nat>)
    requires radix >= 2
    ensures forall i :: 0 <= i < |ds| ==> ds[i] < radix
  {
    if n == 0 then []
    else
      assert n / radix < n by {
        QuotientIsLess(n, radix);
      }
      Digits(n / radix, radix) + [n % radix]
  }

  lemma QuotientIsLess(n: nat, d: nat)
    requires n > 0 && d >= 2
    ensures 0 <= n / d < n
  {
    var q := n / d;
    assert n == q * d + n % d;
    if q >= n {
      ProductMonotone(n, q, d);
      ProductMonotone(2, d, n);
    }
    if q < 0 {
      ProductMonotone(q, -1, d);
    }
  }

  function Number(ds: seq<nat>, radix: nat): nat
  {
    if ds == [] then 0 else Number(ds[..|ds| - 1], radix) * radix + ds[|ds| - 1]
  }

  predicate AllBelow(ds: seq<nat>, radix: nat)
  {
    forall i :: 0 <= i < |ds| ==> ds[i] < radix
  }

  lemma DivModRestores(n: nat, d: nat)
    requires d > 0
    ensures n / d * d + n % d == n
  {
  }

  lemma {:induction false} NumberOfDigits(n: nat, radix: nat)
    requires radix >= 2
    ensures Number(Digits(n, radix), radix) == n
    decreases n
  {
    if n > 0 {
      QuotientIsLess(n, radix);
      var front := Digits(n / radix, radix);
      NumberOfDigits(n / radix, radix);
      DivModRestores(n, radix);
      SliceConcat(front, [n % radix]);
    }
  }

  lemma {:induction false} DigitsHaveNoLeadingZero(n: nat, radix: nat)
    requires radix >= 2 && n > 0
    ensures Digits(n, radix) != [] && Digits(n, radix)[0] != 0
    decreases n
  {
    QuotientIsLess(n, radix);
    DivModRestores(n, radix);
    if n / radix > 0 {
      DigitsHaveNoLeadingZero(n / radix, radix);
    }
  }

  lemma {:induction false} NumberIsPositive(ds: seq<nat>, radix: nat)
    requires radix >= 2 && ds != [] && ds[0] != 0
    ensures Number(ds, radix) > 0
    decreases |ds|
  {
    if |ds| > 1 {
      NumberIsPositive(ds[..|ds| - 1], radix);
      ProductMonotone(1, Number(ds[..|ds| - 1], radix), radix);
    }
  }

  lemma {:induction false} DigitsOfNumber(ds: seq<nat>, radix: nat)
    requires radix >= 2 && AllBelow(ds, radix) && (ds != [] ==> ds[0] != 0)
    ensures Digits(Number(ds, radix), radix) == ds
    decreases |ds|
  {
    if ds != [] {
      var front, last := ds[..|ds| - 1], ds[|ds| - 1];
      var n := Number(ds, radix);
      DigitsOfNumber(front, radix);
      NumberIsPositive(ds, radix);
      DivisionIs(n, radix, Number(front, radix), last);
      assert ds == front + [last];
    }
  }

  // ---- Byte strings ----

  /** How many x lead the sequence: what lstrip takes off. */
  function Leading<T(==)>(s: seq<T>, x: T): (n: nat)
    ensures n <= |s| && (forall i :: 0 <= i < n ==> s[i] == x) && (n < |s| ==> s[n] != x)
  {
    if s != [] && s[0] == x then 1 + Leading(s[1..], x) else 0
  }

  function Repeated<T>(x: T, n: nat): (s: seq<T>)
    ensures |s| == n && forall i :: 0 <= i < n ==> s[i] == x
  {
    seq(n, _ => x)
  }

  lemma {:induction false} LeadingOf<T>(x: T, n: nat, rest: seq<T>)
    requires rest != [] ==> rest[0] != x
    ensures Leading(Repeated(x, n) + rest, x) == n
    decreases n
  {
    var s := Repeated(x, n) + rest;
    if n > 0 {
      LeadingOf(x, n - 1, rest);
      assert s[1..] == Repeated(x, n - 1) + rest;
    } else {
      assert s == rest;
    }
  }

  lemma LeadingSplits<T>(s: seq<T>, x: T)
    ensures s == Repeated(x, Leading(s, x)) + s[Leading(s, x)..]
  {
  }

  /** num.bit_length() */
  function BitLength(n: nat): nat { if n == 0 then 0 else 1 + BitLength(n / 2) }

  /** num.to_bytes(k, 'big'), for a number that fits. */
  function ToBigEndian(n: nat, k: nat): (b: Bytes)
    ensures |b| == k
  {
    if k == 0 then [] else ToBigEndian(n / 256, k - 1) + [n % 256]
  }

  lemma BitLengthStep(n: nat)
    requires n >= 256
    ensures BitLength(n) == 8 + BitLength(n / 256)
  {
    assert BitLength(n) == 1 + BitLength(n / 2);
    assert BitLength(n / 2) == 1 + BitLength(n / 4);
    assert BitLength(n / 4) == 1 + BitLength(n / 8);
    assert BitLength(n / 8) == 1 + BitLength(n / 16);
    assert BitLength(n / 16) == 1 + BitLength(n / 32);
    assert BitLength(n / 32) == 1 + BitLength(n / 64);
    assert BitLength(n / 64) == 1 + BitLength(n / 128);
    assert BitLength(n / 128) == 1 + BitLength(n / 256);
  }

  lemma BitLengthOfByte(n: nat)
    requires 0 < n < 256
    ensures 1 <= BitLength(n) <= 8
  {
    assert n / 2 < 128 && n / 4 < 64 && n / 8 < 32 && n / 16 < 16 && n / 32 < 8 && n / 64 < 4 && n / 128 < 2
           && n / 256 == 0;
    assert BitLength(n / 128) <= 1;
    assert BitLength(n / 64) <= 2;
    assert BitLength(n / 32) <= 3;
    assert BitLength(n / 16) <= 4;
    assert BitLength(n / 8) <= 5;
    assert BitLength(n / 4) <= 6;
    assert BitLength(n / 2) <= 7;
  }

  /** The rounded-up bit length in bytes is the number of base-256 digits. */
  lemma {:induction false} ByteLength(n: nat)
    ensures (BitLength(n) + 7) / 8 == |Digits(n, 256)|
    decreases n
  {
    if n >= 256 {
      BitLengthStep(n);
      ByteLength(n / 256);
    } else if n > 0 {
      BitLengthOfByte(n);
      assert Digits(n / 256, 256) == [];
    }
  }

  lemma {:induction false} ToBigEndianOfZero(k: nat)
    ensures ToBigEndian(0, k) == Repeated<byte>(0, k)
  {
    if k > 0 {
      ToBigEndianOfZero(k - 1);
    }
  }

  lemma {:induction false} ToBigEndianPads(n: nat, z: nat)
    ensures ToBigEndian(n, z + |Digits(n, 256)|) == Repeated<byte>(0, z) + Digits(n, 256)
    decreases n
  {
    if n == 0 {
      ToBigEndianOfZero(z);
      assert Repeated<byte>(0, z) + Digits(n, 256) == Repeated<byte>(0, z);
    } else {
      ToBigEndianPads(n / 256, z);
      ConcatAssoc(Repeated<byte>(0, z), Digits(n / 256, 256), [n % 256]);
    }
  }

  // ---- The codec ----

  function CharsOf(b: Base, ds: seq<nat>): (s: string)
    requires AllBelow(ds, Radix(b))
    ensures |s| == |ds| && forall i :: 0 <= i < |ds| ==> s[i] == CharOf(b, ds[i])
  {
    seq(|ds|, i requires 0 <= i < |ds| => CharOf(b, ds[i]))
  }

  predicate Allowed(b: Base, s: string)
  {
    forall i :: 0 <= i < |s| ==> DigitOf(b, s[i]) >= 0
  }

  function DigitsOf(b: Base, s: string): (ds: seq<nat>)
    requires Allowed(b, s)
    ensures |ds| == |s| && forall i :: 0 <= i < |s| ==> ds[i] == DigitOf(b, s[i])
  {
    seq(|s|, i requires 0 <= i < |s| => DigitOf(b, s[i]))
  }

  /** base_encode */
  function Encode(b: Base, v: Bytes): string
  {
    var zeros := Leading(v, 0);
    Repeated(CharOf(b, 0), zeros) + CharsOf(b, Digits(Number(v[zeros..], 256), Radix(b)))
  }

  /** base_decode; Err is the BaseDecodeError for a forbidden character. */
  function Decode(b: Base, s: string): Result<Bytes>
  {
    var zeros := Leading(s, CharOf(b, 0));
    var rest := s[zeros..];
    if !Allowed(b, rest) then Err
    else
      var num := Number(DigitsOf(b, rest), Radix(b));
      Ok(ToBigEndian(num, zeros + (BitLength(num) + 7) / 8))
  }

  lemma DigitsOfChars(b: Base, ds: seq<nat>)
    requires AllBelow(ds, Radix(b))
    ensures Allowed(b, CharsOf(b, ds)) && DigitsOf(b, CharsOf(b, ds)) == ds
  {
    hide DigitOf, CharOf;
    forall i | 0 <= i < |ds| ensures DigitOf(b, CharOf(b, ds[i])) == ds[i] {
      DigitOfChar(b, ds[i]);
    }
  }

  lemma CharsOfDigits(b: Base, s: string)
    requires Allowed(b, s)
    ensures AllBelow(DigitsOf(b, s), Radix(b)) && CharsOf(b, DigitsOf(b, s)) == s
  {
    hide DigitOf, CharOf;
    forall i | 0 <= i < |s| ensures 0 <= DigitOf(b, s[i]) < Radix(b) && CharOf(b, DigitOf(b, s[i])) == s[i] {
      CharOfDigit(b, s[i]);
    }
  }

  lemma ZeroCharIsZero(b: Base, c: char)
    ensures DigitOf(b, c) == 0 <==> c == CharOf(b, 0)
  {
  }

  lemma EncodeIs(b: Base, zeros: nat, rest: Bytes)
    requires rest != [] ==> rest[0] != 0
    ensures Encode(b, Repeated<byte>(0, zeros) + rest)
         == Repeated(CharOf(b, 0), zeros) + CharsOf(b, Digits(Number(rest, 256), Radix(b)))
  {
    hide Number, Digits, CharOf, Repeated, CharsOf;
    LeadingOf(0, zeros, rest);
    SliceConcat(Repeated<byte>(0, zeros), rest);
  }

  lemma DecodedBytes(num: nat, zeros: nat)
    ensures ToBigEndian(num, zeros + (BitLength(num) + 7) / 8) == Repeated<byte>(0, zeros) + Digits(num, 256)
  {
    ByteLength(num);
    ToBigEndianPads(num, zeros);
  }

  lemma DecodeIs(b: Base, zeros: nat, rest: string)
    requires (rest != [] ==> rest[0] != CharOf(b, 0)) && Allowed(b, rest)
    ensures Decode(b, Repeated(CharOf(b, 0), zeros) + rest)
         == Ok(Repeated<byte>(0, zeros) + Digits(Number(DigitsOf(b, rest), Radix(b)), 256))
  {
    hide Number, Digits, CharOf, Repeated, Allowed, DigitsOf, ToBigEndian, BitLength, Leading;
    LeadingOf(CharOf(b, 0), zeros, rest);
    SliceConcat(Repeated(CharOf(b, 0), zeros), rest);
    DecodedBytes(Number(DigitsOf(b, rest), Radix(b)), zeros);
  }

  lemma NoLeadingZero(num: nat, radix: nat)
    requires radix >= 2
    ensures Digits(num, radix) != [] ==> Digits(num, radix)[0] != 0
  {
    if num > 0 {
      DigitsHaveNoLeadingZero(num, radix);
    }
  }

  lemma DecodeOfEncodeParts(b: Base, zeros: nat, rest: Bytes)
    requires rest != [] ==> rest[0] != 0
    ensures Decode(b, Encode(b, Repeated<byte>(0, zeros) + rest)) == Ok(Repeated<byte>(0, zeros) + rest)
    ensures Leading(Encode(b, Repeated<byte>(0, zeros) + rest), CharOf(b, 0)) == zeros
  {
    hide Number, Digits, CharOf, DigitOf, Encode, Decode, Repeated, Allowed, Leading;
    var ds := Digits(Number(rest, 256), Radix(b));
    EncodeIs(b, zeros, rest);
    NoLeadingZero(Number(rest, 256), Radix(b));
    DigitsOfChars(b, ds);
    if ds != [] {
      DigitOfChar(b, ds[0]);
      DigitOfChar(b, 0);
    }
    DecodeIs(b, zeros, CharsOf(b, ds));
    NumberOfDigits(Number(rest, 256), Radix(b));
    DigitsOfNumber(rest, 256);
    LeadingOf(CharOf(b, 0), zeros, CharsOf(b, ds));
  }

  /** Decoding inverts encoding for every byte string, and as many zero digits lead the text as zero bytes the
      string. */
  lemma DecodeOfEncode(b: Base, v: Bytes)
    ensures Decode(b, Encode(b, v)) == Ok(v)
    ensures Leading(Encode(b, v), CharOf(b, 0)) == Leading(v, 0)
  {
    LeadingSplits(v, 0);
    var zeros := Leading(v, 0);
    assert v[zeros..] != [] ==> v[zeros..][0] != 0;
    hide Encode, Decode, Leading, Repeated;
    DecodeOfEncodeParts(b, zeros, v[zeros..]);
  }

  lemma EncodeOfDecodeParts(b: Base, zeros: nat, rest: string)
    requires (rest != [] ==> rest[0] != CharOf(b, 0)) && Allowed(b, rest)
    ensures Decode(b, Repeated(CharOf(b, 0), zeros) + rest).Ok?
    ensures Encode(b, Decode(b, Repeated(CharOf(b, 0), zeros) + rest).value) == Repeated(CharOf(b, 0), zeros) + rest
  {
    hide Number, Digits, CharOf, DigitOf, Encode, Decode, Repeated, Allowed;
    var ds := DigitsOf(b, rest);
    var num := Number(ds, Radix(b));
    CharsOfDigits(b, rest);
    if rest != [] {
      ZeroCharIsZero(b, rest[0]);
    }
    DecodeIs(b, zeros, rest);
    NoLeadingZero(num, 256);
    EncodeIs(b, zeros, Digits(num, 256));
    NumberOfDigits(num, 256);
    DigitsOfNumber(ds, Radix(b));
  }

  /** Encoding inverts decoding for every text over the alphabet, and no other text is decoded. */
  lemma EncodeOfDecode(b: Base, s: string)
    ensures Decode(b, s).Ok? <==> Allowed(b, s)
    ensures Decode(b, s).Ok? ==> Encode(b, Decode(b, s).value) == s
  {
    hide Number, Digits, CharOf, DigitOf, Encode, Repeated, Allowed;
    var zeros := Leading(s, CharOf(b, 0));
    AllowedRest(b, s);
    LeadingSplits(s, CharOf(b, 0));
    if Allowed(b, s[zeros..]) {
      EncodeOfDecodeParts(b, zeros, s[zeros..]);
    }
  }

  lemma AllowedRest(b: Base, s: string)
    ensures Allowed(b, s) <==> Allowed(b, s[Leading(s, CharOf(b, 0))..])
  {
    var zero := CharOf(b, 0);
    var zeros := Leading(s, zero);
    var rest := s[zeros..];
    ZeroCharIsZero(b, zero);
    hide DigitOf, CharOf;
    if Allowed(b, rest) {
      forall i | 0 <= i < |s| ensures DigitOf(b, s[i]) >= 0 {
        if i >= zeros {
          assert s[i] == rest[i - zeros];
        }
      }
    }
  }

  // ---- The loops ----

  lemma CharsSnoc(b: Base, ds: seq<nat>, d: nat, text: string)
    requires AllBelow(ds, Radix(b)) && d < Radix(b)
    ensures AllBelow(ds + [d], Radix(b)) && CharsOf(b, ds + [d]) + text == CharsOf(b, ds) + ([CharOf(b, d)] + text)
  {
    hide CharOf;
    assert CharsOf(b, ds + [d]) == CharsOf(b, ds) + [CharOf(b, d)];
    ConcatAssoc(CharsOf(b, ds), [CharOf(b, d)], text);
  }

  method BaseEncode(b: Base, v: Bytes) returns (text: string)
    ensures text == Encode(b, v)
  {
    hide CharOf;
    var zeros := Leading(v, 0);
    var num: nat := Number(v[zeros..], 256);
    text := "";
    ghost var all := CharsOf(b, Digits(num, Radix(b)));
    assert all + "" == all;
    while num > 0
      invariant CharsOf(b, Digits(num, Radix(b))) + text == all
      decreases num
    {
      QuotientIsLess(num, Radix(b));
      CharsSnoc(b, Digits(num / Radix(b), Radix(b)), num % Radix(b), text);
      text := [CharOf(b, num % Radix(b))] + text;
      num := num / Radix(b);
    }
    assert CharsOf(b, []) + text == text;
    text := Repeated(CharOf(b, 0), zeros) + text;
  }

  method BaseDecode(b: Base, s: string) returns (r: Result<Bytes>)
    ensures r == Decode(b, s)
  {
    hide CharOf, DigitOf;
    var zeros := Leading(s, CharOf(b, 0));
    var rest := s[zeros..];
    var num := 0;
    for i := 0 to |rest|
      invariant Allowed(b, rest[..i]) && num == Number(DigitsOf(b, rest[..i]), Radix(b))
    {
      var d := DigitOf(b, rest[i]);
      if d < 0 {
        return Err;
      }
      assert rest[..i + 1] == rest[..i] + [rest[i]];
      assert DigitsOf(b, rest[..i + 1])[..i] == DigitsOf(b, rest[..i]);
      num := num * Radix(b) + d;
    }
    assert rest[..|rest|] == rest;
    return Ok(ToBigEndian(num, zeros + (BitLength(num) + 7) / 8));
  }
}
