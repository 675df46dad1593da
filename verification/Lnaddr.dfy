/** The data part of a payment request (BOLT #11, section "Tagged Fields"): timestamp and tagged fields, written and
    read back. */
module Lnaddr {
  import opened Common
  import opened ConvertBits
  import opened BaseCodec
  import Bech32Text
  import Utf8

  /** A list of five-bit values. */
  type Data5 = seq<nat>

  // ---- Tags ----

  /** One hop of a routing hint. */
  datatype Hop = Hop(pubkey: Bytes, scid: Bytes, feeBase: nat, feeRate: nat, cltv: nat)

  datatype Tag = R(hops: seq<Hop>) | D(description: string) | H(hash: Bytes) | X(expiry: nat) | C(cltv: nat)
      | Nine(features: nat)

  datatype LnAddr = LnAddr(
    date: nat, paymentHash: Option<Bytes>, paymentSecret: Option<Bytes>, pubkey: Option<Bytes>,
    tags: seq<Tag>, others: seq<(nat, Data5)>)

  /** CHARSET_INVERSE of the tag characters. */
  const TAG_P: nat := 1
  const TAG_R: nat := 3
  const TAG_9: nat := 5
  const TAG_X: nat := 6
  const TAG_D: nat := 13
  const TAG_S: nat := 16
  const TAG_N: nat := 19
  const TAG_H: nat := 23
  const TAG_C: nat := 24

  predicate HopOk(h: Hop)
  {
    |h.pubkey| == 33 && |h.scid| == 8 && h.feeBase < 0x1_0000_0000 && h.feeRate < 0x1_0000_0000 && h.cltv < 0x1_0000
  }

  predicate HopsOk(hops: seq<Hop>) { hops == [] || (HopOk(hops[0]) && HopsOk(hops[1..])) }

  // ---- Writing ----

  function HopBytes(h: Hop): Bytes
  {
    h.pubkey + (h.scid + (ToBigEndian(h.feeBase, 4) + (ToBigEndian(h.feeRate, 4) + ToBigEndian(h.cltv, 2))))
  }

  function RouteBytes(hops: seq<Hop>): Bytes
  {
    if hops == [] then [] else HopBytes(hops[0]) + RouteBytes(hops[1..])
  }

  /** tagged5; Err is the failed assertion for 1024 values or more. */
  function Tagged5(tag: nat, data: Data5): Result<Data5>
  {
    if |data| < 1024 then Ok([tag, |data| / 32, |data| % 32] + data) else Err
  }

  function ToFive(b: Bytes): Data5
  {
    match Converted(b, 8, 5, true)
    case Some(d) => d
    case None => []
  }

  /** tagged8 */
  function Tagged8(tag: nat, b: Bytes): Result<Data5> { Tagged5(tag, ToFive(b)) }

  /** int_to_data5 without a bit length. */
  function IntToData5(n: nat): Data5 { Digits(n, 32) }

  /** int_to_data5, with its loop. */
  method IntToData5Loop(n: nat) returns (d: Data5)
    ensures d == IntToData5(n)
  {
    var val: nat := n;
    var ret: seq<nat> := [];
    while val != 0
      invariant Digits(val, 32) + Backwards(ret) == Digits(n, 32)
      decreases val
    {
      QuotientIsLess(val, 32);
      BackwardsSnoc(ret, val % 32);
      ConcatAssoc(Digits(val / 32, 32), [val % 32], Backwards(ret));
      ret := ret + [val % 32];
      val := val / 32;
    }
    assert [] + Backwards(ret) == Backwards(ret);
    d := Backwards(ret);
  }

  /** list.reverse */
  function Backwards(s: seq<nat>): (r: seq<nat>)
    ensures |r| == |s| && forall i :: 0 <= i < |s| ==> r[i] == s[|s| - 1 - i]
  {
    seq(|s|, i requires 0 <= i < |s| => s[|s| - 1 - i])
  }

  lemma BackwardsSnoc(s: seq<nat>, x: nat)
    ensures Backwards(s + [x]) == [x] + Backwards(s)
  {
  }

  const MAX_DATE: nat := 0x8_0000_0000

  /** int_to_data5 for 35 bits: too big is a ValueError, and too few digits are not filled up. */
  function DateData(date: nat): Result<Data5>
  {
    if date >= MAX_DATE then Err else Ok(IntToData5(date))
  }

  /** The tags of which a second one is refused. */
  predicate Once(t: Tag) { t.D? || t.H? || t.X? || t.Nine? }

  function Code(t: Tag): nat
  {
    match t
    case R(_) => TAG_R
    case D(_) => TAG_D
    case H(_) => TAG_H
    case X(_) => TAG_X
    case C(_) => TAG_C
    case Nine(_) => TAG_9
  }

  const MAX_DESCRIPTION := 639

  function Truncated(b: Bytes): Bytes { b[..Min(|b|, MAX_DESCRIPTION)] }

  function EncodeTag(t: Tag): Result<Data5>
  {
    match t
    case R(hops) => Tagged8(TAG_R, RouteBytes(hops))
    case D(v) => Tagged8(TAG_D, Truncated(Utf8.Encode(v)))
    case H(h) => Tagged8(TAG_H, h)
    case X(n) => Tagged5(TAG_X, IntToData5(n))
    case C(n) => Tagged5(TAG_C, IntToData5(n))
    case Nine(n) => if n == 0 then Ok([]) else Tagged5(TAG_9, IntToData5(n))
  }

  /** The loop over the tags, given the codes used so far; the codes used at the end. */
  function EncodeTags(tags: seq<Tag>, used: set<nat>): Result<(Data5, set<nat>)>
  {
    if tags == [] then Ok(([], used))
    else if Once(tags[0]) && Code(tags[0]) in used then Err
    else match EncodeTag(tags[0])
      case Err => Err
      case Ok(d) =>
        match EncodeTags(tags[1..], if tags[0] == Nine(0) then used else used + {Code(tags[0])})
        case Err => Err
        case Ok((rest, all)) => Ok((d + rest, all))
  }

  /** The data part that lnencode_unsigned writes in front of the signature. */
  function Encode(date: nat, paymentHash: Bytes, paymentSecret: Option<Bytes>, tags: seq<Tag>): Result<Data5>
  {
    match (DateData(date), Tagged8(TAG_P, paymentHash),
           match paymentSecret case Some(s) => Tagged8(TAG_S, s) case None => Ok([]), EncodeTags(tags, {}))
    case (Ok(d), Ok(p), Ok(s), Ok((t, used))) =>
      if (TAG_D in used) == (TAG_H in used) then Err else Ok(d + (p + (s + t)))
    case _ => Err
  }

  // ---- Reading ----

  /** int_from_data5 */
  method IntFromData5(d: Data5) returns (total: nat)
    ensures total == Number(d, 32)
  {
    total := 0;
    for i := 0 to |d|
      invariant total == Number(d[..i], 32)
    {
      assert d[..i + 1][..i] == d[..i];
      total := 32 * total + d[i];
    }
    assert d[..|d|] == d;
  }

  /** pull_tagged on a value: tag, data, and what is left. */
  function Pull(d: Data5): (r: Result<(nat, Data5, Data5)>)
    ensures r.Ok? ==> |r.value.2| < |d|
  {
    if |d| < 3 || d[1] * 32 + d[2] > |d| - 3 then Err
    else
      var n := d[1] * 32 + d[2];
      Ok((d[0], d[3..3 + n], d[3 + n..]))
  }

  /** The bytearray that fields are pulled from. */
  class Buffer {
    var data: Data5

    constructor (d: Data5)
      ensures data == d
    {
      data := d;
    }

    /** pull_tagged */
    method PullTagged() returns (r: Result<(nat, Data5)>)
      modifies this
      ensures match Pull(old(data))
              case Ok((tag, tagData, rest)) => r == Ok((tag, tagData)) && data == rest
              case Err => r.Err? && data == old(data)
    {
      if |data| < 3 {
        return Err;
      }
      var length := data[1] * 32 + data[2];
      if length > |data| - 3 {
        return Err;
      }
      r := Ok((data[0], data[3..3 + length]));
      data := data[3 + length..];
    }
  }

  /** The entries of a routing hint; an incomplete one at the end is dropped. */
  function Hops(b: Bytes): seq<Hop>
    decreases |b|
  {
    if |b| < 51 then []
    else
      [Hop(b[..33], b[33..41], Number(b[41..45], 256), Number(b[45..49], 256), Number(b[49..51], 256))] + Hops(b[51..])
  }

  /** bytes(convertbits(data, 5, 8, False)); Err is the TypeError for None. */
  function FromFive(d: Data5): Result<Bytes>
  {
    match Converted(d, 5, 8, false)
    case None => Err
    case Some(b) => if forall i :: 0 <= i < |b| ==> b[i] < 256 then Ok(b) else Err
  }

  /** What lndecode does with one field. Fields t and f are kept as they are. */
  function Apply(a: LnAddr, tag: nat, d: Data5): Result<LnAddr>
  {
    if tag == TAG_R then
      match FromFive(d)
      case Err => Ok(a)
      case Ok(b) => Ok(if Hops(b) == [] then a else a.(tags := a.tags + [R(Hops(b))]))
    else if tag == TAG_D then
      match FromFive(d)
      case Err => Err
      case Ok(b) => (match Utf8.Decode(b) case Err => Err case Ok(text) => Ok(a.(tags := a.tags + [D(text)])))
    else if tag == TAG_H && |d| == 52 then
      match FromFive(d) case Err => Err case Ok(b) => Ok(a.(tags := a.tags + [H(b)]))
    else if tag == TAG_X then Ok(a.(tags := a.tags + [X(Number(d, 32))]))
    else if tag == TAG_P && |d| == 52 then
      match FromFive(d) case Err => Err case Ok(b) => Ok(a.(paymentHash := Some(b)))
    else if tag == TAG_S && |d| == 52 then
      match FromFive(d) case Err => Err case Ok(b) => Ok(a.(paymentSecret := Some(b)))
    else if tag == TAG_N && |d| == 53 then
      match FromFive(d) case Err => Err case Ok(b) => Ok(a.(pubkey := Some(b)))
    else if tag == TAG_C then Ok(a.(tags := a.tags + [C(Number(d, 32))]))
    else if tag == TAG_9 then Ok(a.(tags := a.tags + [Nine(Number(d, 32))]))
    else Ok(a.(others := a.others + [(tag, d)]))
  }

  function DecodeFields(a: LnAddr, d: Data5): Result<LnAddr>
    decreases |d|
  {
    if d == [] then Ok(a)
    else match Pull(d)
      case Err => Err
      case Ok((tag, tagData, rest)) =>
        match Apply(a, tag, tagData)
        case Err => Err
        case Ok(a') => DecodeFields(a', rest)
  }

  /** The data part between prefix and signature, as lndecode reads it. */
  function Decode(d: Data5): Result<LnAddr>
  {
    var n := Min(|d|, 7);
    DecodeFields(LnAddr(Number(d[..n], 32), None, None, None, [], []), d[n..])
  }

  /** The field loop of lndecode. Each turn shortens the buffer. */
  method DecodeLoop(d: Data5) returns (r: Result<LnAddr>)
    ensures r == Decode(d)
  {
    var n := Min(|d|, 7);
    var date := IntFromData5(d[..n]);
    var a := LnAddr(date, None, None, None, [], []);
    var buffer := new Buffer(d[n..]);
    while buffer.data != []
      invariant DecodeFields(a, buffer.data) == Decode(d)
      decreases |buffer.data|
    {
      var field := buffer.PullTagged();
      if field.Err? {
        return Err;
      }
      var next := Apply(a, field.value.0, field.value.1);
      if next.Err? {
        return Err;
      }
      a := next.value;
    }
    return Ok(a);
  }

  // ---- One field ----

  /** The codes are the places of the tag characters in the charset. */
  lemma TagCodes()
    ensures Bech32Text.Position('p') == TAG_P && Bech32Text.Position('r') == TAG_R && Bech32Text.Position('9') == TAG_9
    ensures Bech32Text.Position('x') == TAG_X && Bech32Text.Position('d') == TAG_D && Bech32Text.Position('s') == TAG_S
    ensures Bech32Text.Position('n') == TAG_N && Bech32Text.Position('h') == TAG_H && Bech32Text.Position('c') == TAG_C
  {
  }

  lemma PullOfTagged(tag: nat, data: Data5, rest: Data5)
    requires |data| < 1024
    ensures Pull(Tagged5(tag, data).value + rest) == Ok((tag, data, rest))
  {
    var head := [tag, |data| / 32, |data| % 32];
    var d := (head + data) + rest;
    assert d[0] == tag && d[1] == |data| / 32 && d[2] == |data| % 32;
    assert d[3..3 + |data|] == data;
    assert d[3 + |data|..] == rest;
  }

  lemma {:induction false} BytesInRange(b: Bytes)
    ensures InRange(b, 8)
  {
    assert Pow2(4) == 16 && Pow2(8) == 256;
    if b != [] {
      BytesInRange(b[1..]);
    }
  }

  lemma FromFiveOfToFive(b: Bytes)
    ensures FromFive(ToFive(b)) == Ok(b)
  {
    BytesInRange(b);
    ThereAndBack(b, 8, 5);
    hide Converted, InRange;
    assert forall i :: 0 <= i < |b| ==> b[i] < 256;
  }

  /** Five-bit values for n bytes. */
  lemma ToFiveLength(b: Bytes)
    ensures 5 * |ToFive(b)| - 4 <= 8 * |b| <= 5 * |ToFive(b)|
  {
    BytesInRange(b);
    NaturalsAreSame(b, 8);
    BitsOfPadded(AllBits(b, 8), 5);
    hide InRange, PaddedGroups, Rest, AllBits, BitsOf;
  }

  lemma IntRoundTrip(n: nat)
    ensures Number(IntToData5(n), 32) == n
  {
    NumberOfDigits(n, 32);
  }

  // ---- Routing hints ----

  function Pow256(k: nat): (p: nat)
    ensures p > 0
  {
    if k == 0 then 1 else 256 * Pow256(k - 1)
  }

  lemma {:induction false} NumberOfBigEndian(n: nat, k: nat)
    requires n < Pow256(k)
    ensures Number(ToBigEndian(n, k), 256) == n
  {
    if k > 0 {
      NumberOfBigEndian(n / 256, k - 1);
      SliceConcat(ToBigEndian(n / 256, k - 1), [n % 256]);
    }
  }

  lemma Pow256Values()
    ensures Pow256(2) == 0x1_0000 && Pow256(4) == 0x1_0000_0000
  {
    assert Pow256(1) == 256 && Pow256(2) == 256 * Pow256(1);
    assert Pow256(3) == 256 * Pow256(2) && Pow256(4) == 256 * Pow256(3);
  }

  lemma HopParts(a: Bytes, b: Bytes, c: Bytes, d: Bytes, e: Bytes, rest: Bytes)
    requires |a| == 33 && |b| == 8 && |c| == 4 && |d| == 4 && |e| == 2
    ensures var s := (a + (b + (c + (d + e)))) + rest;
            && s[..33] == a && s[33..41] == b && s[41..45] == c && s[45..49] == d && s[49..51] == e
            && s[51..] == rest
  {
    var s := (a + (b + (c + (d + e)))) + rest;
    assert s[49] == e[0] && s[50] == e[1];
    assert s[49..51] == [e[0], e[1]] == e;
  }

  lemma {:induction false} HopsOfRoute(hops: seq<Hop>)
    requires HopsOk(hops)
    ensures Hops(RouteBytes(hops)) == hops
  {
    hide Number, ToBigEndian, Pow256;
    if hops != [] {
      var h := hops[0];
      Pow256Values();
      NumberOfBigEndian(h.feeBase, 4);
      NumberOfBigEndian(h.feeRate, 4);
      NumberOfBigEndian(h.cltv, 2);
      HopParts(h.pubkey, h.scid, ToBigEndian(h.feeBase, 4), ToBigEndian(h.feeRate, 4), ToBigEndian(h.cltv, 2),
               RouteBytes(hops[1..]));
      HopsOfRoute(hops[1..]);
      assert [h] + hops[1..] == hops;
    }
  }

  // ---- The tags ----

  predicate TagOk(t: Tag)
  {
    match t
    case R(hops) => HopsOk(hops)
    case H(h) => |h| == 32
    case _ => true
  }

  predicate TagsOk(tags: seq<Tag>) { tags == [] || (TagOk(tags[0]) && TagsOk(tags[1..])) }

  /** What reading a description gives: the UTF-8 form cut off at 639 bytes. */
  function CutText(v: string): Result<string> { Utf8.Decode(Truncated(Utf8.Encode(v))) }

  predicate Readable(t: Tag) { t.D? ==> CutText(t.description).Ok? }

  predicate AllReadable(tags: seq<Tag>) { tags == [] || (Readable(tags[0]) && AllReadable(tags[1..])) }

  /** What of a readable tag is there after reading: an empty routing hint and a zero feature set are gone, and a
      description is cut off. */
  function Kept(t: Tag): seq<Tag>
    requires Readable(t)
  {
    match t
    case R(hops) => if hops == [] then [] else [t]
    case D(v) => [D(CutText(v).value)]
    case Nine(n) => if n == 0 then [] else [t]
    case _ => [t]
  }

  function KeptAll(tags: seq<Tag>): seq<Tag>
    requires AllReadable(tags)
  {
    if tags == [] then [] else Kept(tags[0]) + KeptAll(tags[1..])
  }

  /** What the field of a tag holds. */
  function Content(t: Tag): Data5
  {
    match t
    case R(hops) => ToFive(RouteBytes(hops))
    case D(v) => ToFive(Truncated(Utf8.Encode(v)))
    case H(h) => ToFive(h)
    case X(n) => IntToData5(n)
    case C(n) => IntToData5(n)
    case Nine(n) => IntToData5(n)
  }

  lemma ApplyOfContent(a: LnAddr, t: Tag)
    requires TagOk(t) && t != Nine(0)
    ensures Apply(a, Code(t), Content(t)) == if Readable(t) then Ok(a.(tags := a.tags + Kept(t))) else Err
  {
    hide FromFive, ToFive, Hops, RouteBytes, Number, IntToData5, HopsOk, Utf8.Decode, Utf8.Encode, Truncated;
    assert a.tags + [] == a.tags;
    match t {
      case R(hops) =>
        FromFiveOfToFive(RouteBytes(hops));
        HopsOfRoute(hops);
      case D(v) =>
        FromFiveOfToFive(Truncated(Utf8.Encode(v)));
      case H(h) =>
        FromFiveOfToFive(h);
        ToFiveLength(h);
      case X(n) => IntRoundTrip(n);
      case C(n) => IntRoundTrip(n);
      case Nine(n) => IntRoundTrip(n);
    }
  }

  lemma DecodeField(a: LnAddr, tag: nat, data: Data5, rest: Data5)
    requires |data| < 1024
    ensures DecodeFields(a, Tagged5(tag, data).value + rest)
         == if Apply(a, tag, data).Ok? then DecodeFields(Apply(a, tag, data).value, rest) else Err
  {
    hide Apply, Pull;
    PullOfTagged(tag, data, rest);
  }

  lemma DecodeTag(a: LnAddr, t: Tag, rest: Data5)
    requires TagOk(t) && EncodeTag(t).Ok?
    ensures DecodeFields(a, EncodeTag(t).value + rest)
         == if Readable(t) then DecodeFields(a.(tags := a.tags + Kept(t)), rest) else Err
  {
    hide DecodeFields, Apply, ToFive, RouteBytes, IntToData5, TagOk, CutText;
    if t == Nine(0) {
      assert [] + rest == rest && a.tags + [] == a.tags;
    } else {
      ApplyOfContent(a, t);
      DecodeField(a, Code(t), Content(t), rest);
    }
  }

  lemma {:induction false} DecodeTags(a: LnAddr, tags: seq<Tag>, used: set<nat>)
    requires TagsOk(tags) && EncodeTags(tags, used).Ok?
    ensures DecodeFields(a, EncodeTags(tags, used).value.0)
         == if AllReadable(tags) then Ok(a.(tags := a.tags + KeptAll(tags))) else Err
    decreases |tags|
  {
    hide EncodeTag, Kept, TagOk, Apply, Pull, Readable;
    if tags == [] {
      assert a.tags + [] == a.tags;
    } else {
      var used' := if tags[0] == Nine(0) then used else used + {Code(tags[0])};
      DecodeTag(a, tags[0], EncodeTags(tags[1..], used').value.0);
      if Readable(tags[0]) {
        DecodeTags(a.(tags := a.tags + Kept(tags[0])), tags[1..], used');
        if AllReadable(tags[1..]) {
          ConcatAssoc(a.tags, Kept(tags[0]), KeptAll(tags[1..]));
        }
      }
    }
  }

  // ---- The timestamp ----

  function Pow32(k: nat): (p: nat)
    ensures p > 0
  {
    if k == 0 then 1 else 32 * Pow32(k - 1)
  }

  lemma Pow32Values()
    ensures Pow32(6) == 0x4000_0000 && Pow32(7) == MAX_DATE
  {
    assert Pow32(1) == 32 && Pow32(2) == 32 * Pow32(1) && Pow32(3) == 32 * Pow32(2) && Pow32(4) == 32 * Pow32(3);
    assert Pow32(5) == 32 * Pow32(4) && Pow32(6) == 32 * Pow32(5) && Pow32(7) == 32 * Pow32(6);
  }

  /** How many digits a number has. */
  lemma {:induction false} DigitCount(n: nat, k: nat)
    ensures |Digits(n, 32)| <= k <==> n < Pow32(k)
    decreases k
  {
    if k == 0 {
    } else if n > 0 {
      DigitCount(n / 32, k - 1);
    }
  }

  lemma {:induction false} NumberGrows(a: Data5, b: Data5)
    ensures Number(a + b, 32) >= Number(a, 32)
    decreases |b|
  {
    if b == [] {
      assert a + b == a;
    } else {
      var front := b[..|b| - 1];
      NumberGrows(a, front);
      assert (a + b)[..|a + b| - 1] == a + front;
    }
  }

  /** A shorter timestamp swallows values of the next field. */
  lemma ShortDateIsMisread(date: nat, next: nat, more: Data5)
    requires next > 0
    ensures Number((IntToData5(date) + [next]) + more, 32) > date
  {
    var d := IntToData5(date);
    IntRoundTrip(date);
    SliceConcat(d, [next]);
    NumberGrows(d + [next], more);
  }

  // ---- Round trip ----

  lemma HashField(a: LnAddr, b: Bytes, rest: Data5)
    requires |b| == 32
    ensures Tagged8(TAG_P, b).Ok? && Tagged8(TAG_S, b).Ok?
    ensures DecodeFields(a, Tagged8(TAG_P, b).value + rest) == DecodeFields(a.(paymentHash := Some(b)), rest)
    ensures DecodeFields(a, Tagged8(TAG_S, b).value + rest) == DecodeFields(a.(paymentSecret := Some(b)), rest)
  {
    hide FromFive, ToFive, DecodeFields;
    FromFiveOfToFive(b);
    ToFiveLength(b);
    DecodeField(a, TAG_P, ToFive(b), rest);
    DecodeField(a, TAG_S, ToFive(b), rest);
  }

  /** The fields behind the timestamp. */
  lemma FieldsRoundTrip(a: LnAddr, hash: Bytes, secret: Option<Bytes>, tags: seq<Tag>)
    requires |hash| == 32 && (secret.Some? ==> |secret.value| == 32) && TagsOk(tags) && EncodeTags(tags, {}).Ok?
    requires a.paymentSecret.None?
    ensures Tagged8(TAG_P, hash).Ok? && (secret.Some? ==> Tagged8(TAG_S, secret.value).Ok?)
    ensures var s := if secret.Some? then Tagged8(TAG_S, secret.value).value else [];
            DecodeFields(a, Tagged8(TAG_P, hash).value + (s + EncodeTags(tags, {}).value.0))
            == if AllReadable(tags) then
                 Ok(a.(paymentHash := Some(hash), paymentSecret := secret, tags := a.tags + KeptAll(tags)))
               else Err
  {
    hide Tagged8, DecodeFields, EncodeTags, TagsOk, KeptAll, AllReadable;
    var t := EncodeTags(tags, {}).value.0;
    if secret.Some? {
      HashField(a.(paymentHash := Some(hash)), secret.value, t);
      HashField(a, hash, Tagged8(TAG_S, secret.value).value + t);
    } else {
      assert [] + t == t;
      HashField(a, hash, t);
    }
    DecodeTags(a.(paymentHash := Some(hash), paymentSecret := secret), tags, {});
  }

  lemma HashFieldStart(b: Bytes)
    requires |b| == 32
    ensures Tagged8(TAG_P, b).Ok? && |Tagged8(TAG_P, b).value| == 55 && Tagged8(TAG_P, b).value[0] == TAG_P
  {
    ToFiveLength(b);
  }

  /** The parts of what was encoded. */
  lemma EncodedParts(date: nat, hash: Bytes, secret: Option<Bytes>, tags: seq<Tag>) returns (fields: Data5)
    requires |hash| == 32 && (secret.Some? ==> |secret.value| == 32) && TagsOk(tags)
    requires Encode(date, hash, secret, tags).Ok?
    ensures date < MAX_DATE && Encode(date, hash, secret, tags).value == IntToData5(date) + fields
    ensures |fields| >= 55 && fields[0] == TAG_P
    ensures forall a: LnAddr :: a.paymentSecret.None? ==>
              DecodeFields(a, fields)
              == if AllReadable(tags) then
                   Ok(a.(paymentHash := Some(hash), paymentSecret := secret, tags := a.tags + KeptAll(tags)))
                 else Err
  {
    hide Tagged8, DecodeFields, EncodeTags, TagsOk, KeptAll, AllReadable, IntToData5;
    var s := if secret.Some? then Tagged8(TAG_S, secret.value).value else [];
    HashFieldStart(hash);
    fields := Tagged8(TAG_P, hash).value + (s + EncodeTags(tags, {}).value.0);
    forall a: LnAddr | a.paymentSecret.None?
      ensures DecodeFields(a, fields)
              == if AllReadable(tags) then
                   Ok(a.(paymentHash := Some(hash), paymentSecret := secret, tags := a.tags + KeptAll(tags)))
                 else Err
    {
      FieldsRoundTrip(a, hash, secret, tags);
    }
  }

  /** lndecode reads the same timestamp and the same fields in the same order, exactly when the timestamp takes all of
      its 35 bits and no description is cut off inside a character. */
  lemma DecodeOfEncode(date: nat, hash: Bytes, secret: Option<Bytes>, tags: seq<Tag>)
    requires |hash| == 32 && (secret.Some? ==> |secret.value| == 32) && TagsOk(tags)
    requires Encode(date, hash, secret, tags).Ok?
    ensures var r := Decode(Encode(date, hash, secret, tags).value);
            && (date >= 0x4000_0000 ==>
                  r == if AllReadable(tags) then Ok(LnAddr(date, Some(hash), secret, None, KeptAll(tags), [])) else Err)
            && (date < 0x4000_0000 ==> r.Ok? ==> r.value.date != date)
  {
    hide Encode, TagsOk, KeptAll, AllReadable, IntToData5, Apply, Pull;
    var fields := EncodedParts(date, hash, secret, tags);
    var digits := IntToData5(date);
    var d := digits + fields;
    DateLength(date);
    if date >= 0x4000_0000 {
      SliceConcat(digits, fields);
      IntRoundTrip(date);
      if AllReadable(tags) {
        assert [] + KeptAll(tags) == KeptAll(tags);
      }
    } else {
      var more := fields[1..7 - |digits|];
      assert d[..7] == (digits + [TAG_P]) + more;
      ShortDateIsMisread(date, TAG_P, more);
      DecodedDate(LnAddr(Number(d[..7], 32), None, None, None, [], []), d[7..]);
    }
  }

  // ---- Descriptions ----

  /** A description is read back exactly if its UTF-8 form takes at most 639 bytes; a longer one is read at all exactly
      if the first byte that is cut off begins a character, and then as the characters in front. */
  lemma DescriptionReadBack(v: string)
    ensures CutText(v).Ok? <==>
            |Utf8.Encode(v)| <= MAX_DESCRIPTION || !Utf8.IsContinuation(Utf8.Encode(v)[MAX_DESCRIPTION])
    ensures CutText(v) == Ok(v) <==> |Utf8.Encode(v)| <= MAX_DESCRIPTION
    ensures CutText(v).Ok? ==> CutText(v).value <= v
  {
    var e := Utf8.Encode(v);
    if |e| <= MAX_DESCRIPTION {
      assert Truncated(e) == e && e + [] == e && v + [] == v;
      Utf8.DecodeOfEncode(v, []);
    } else {
      assert Truncated(e) == e[..MAX_DESCRIPTION];
      Utf8.DecodeOfCut(v, MAX_DESCRIPTION);
    }
  }

  /** 638 letters and an accented one. */
  function CutInside(): string { seq(638, _ => 'a') + [233 as char] }

  lemma {:induction false} EncodeLetters(n: nat, rest: string)
    ensures Utf8.Encode(seq(n, _ => 'a') + rest) == seq(n, _ => 'a' as int) + Utf8.Encode(rest)
  {
    if n == 0 {
      assert seq(n, _ => 'a') + rest == rest;
      assert seq(n, _ => 'a' as int) + Utf8.Encode(rest) == Utf8.Encode(rest);
    } else {
      EncodeLetters(n - 1, rest);
      var s := seq(n, _ => 'a') + rest;
      assert s[1..] == seq(n - 1, _ => 'a') + rest;
      assert [97] + (seq(n - 1, _ => 'a' as int) + Utf8.Encode(rest)) == seq(n, _ => 'a' as int) + Utf8.Encode(rest);
    }
  }

  /** What lnencode writes for that description, with any timestamp and payment hash, lndecode raises on. */
  lemma CutInsideIsRefused(date: nat, hash: Bytes, secret: Option<Bytes>)
    requires 0x4000_0000 <= date < MAX_DATE && |hash| == 32 && (secret.Some? ==> |secret.value| == 32)
    ensures Encode(date, hash, secret, [D(CutInside())]).Ok?
    ensures Decode(Encode(date, hash, secret, [D(CutInside())]).value).Err?
  {
    var v := CutInside();
    var e := Utf8.Encode(v);
    EncodeLetters(638, [233 as char]);
    CutCharacter();
    assert |e| == 640 && e[639] == 169;
    DescriptionReadBack(v);
    hide Utf8.Encode, CutText, CutInside, ToFive, IntToData5;
    EncodesDescription(date, hash, secret, v);
    assert !AllReadable([D(v)]);
    DecodeOfEncode(date, hash, secret, [D(v)]);
  }

  lemma CutCharacter()
    ensures Utf8.Encode([233 as char]) == [195, 169]
  {
    assert [233 as char][1..] == [];
  }

  /** A request with a description alone can be written. */
  lemma EncodesDescription(date: nat, hash: Bytes, secret: Option<Bytes>, v: string)
    requires date < MAX_DATE && |hash| == 32 && (secret.Some? ==> |secret.value| == 32)
    ensures TagsOk([D(v)]) && Encode(date, hash, secret, [D(v)]).Ok?
  {
    hide ToFive, IntToData5, Utf8.Encode;
    ToFiveLength(hash);
    if secret.Some? {
      ToFiveLength(secret.value);
    }
    ToFiveLength(Truncated(Utf8.Encode(v)));
    assert [D(v)][1..] == [];
    assert EncodeTag(D(v)).Ok?;
    assert EncodeTags([D(v)], {}) == Ok((EncodeTag(D(v)).value + [], {} + {TAG_D}));
  }

  // ---- The timestamp as read ----

  lemma DateLength(date: nat)
    requires date < MAX_DATE
    ensures |IntToData5(date)| <= 7 && (|IntToData5(date)| == 7 <==> date >= 0x4000_0000)
  {
    Pow32Values();
    DigitCount(date, 7);
    DigitCount(date, 6);
  }

  /** The fields do not change the timestamp. */
  lemma {:induction false} DecodedDate(a: LnAddr, d: Data5)
    ensures DecodeFields(a, d).Ok? ==> DecodeFields(a, d).value.date == a.date
    decreases |d|
  {
    hide FromFive, Hops, Pull;
    if d != [] && Pull(d).Ok? {
      var (tag, data, rest) := Pull(d).value;
      if Apply(a, tag, data).Ok? {
        PullShrinks(d);
        DecodedDate(Apply(a, tag, data).value, rest);
      }
    }
  }

  lemma PullShrinks(d: Data5)
    requires Pull(d).Ok?
    ensures |Pull(d).value.2| < |d|
  {
  }
}
