/** Regrouping bits between symbol widths, as segwit addresses and payment requests do. */
module ConvertBits {
  import opened Common

  function Pow2(n: nat): (p: nat)
    ensures p > 0
  {
    if n == 0 then 1 else 2 * Pow2(n - 1)
  }

  // ---- Bits, highest first ----

  /** The lowest n bits of x. */
  function BitsOf(x: nat, n: nat): (b: seq<bool>)
    ensures |b| == n
  {
    if n == 0 then [] else BitsOf(x / 2, n - 1) + [x % 2 == 1]
  }

  function ValueOf(b: seq<bool>): nat
  {
    if b == [] then 0 else 2 * ValueOf(b[..|b| - 1]) + if b[|b| - 1] then 1 else 0
  }

  function AllBits(data: seq<nat>, width: nat): (b: seq<bool>)
    ensures |b| == width * |data|
  {
    if data == [] then [] else BitsOf(data[0], width) + AllBits(data[1..], width)
  }

  /** The values of the complete groups of a width, and the bits that are left. */
  function Groups(b: seq<bool>, width: nat): seq<nat>
    requires width > 0
    decreases |b|
  {
    if |b| < width then [] else [ValueOf(b[..width])] + Groups(b[width..], width)
  }

  function Rest(b: seq<bool>, width: nat): (r: seq<bool>)
    requires width > 0
    ensures |r| < width
    decreases |b|
  {
    if |b| < width then b else Rest(b[width..], width)
  }

  function NoBits(n: nat): (z: seq<bool>)
    ensures |z| == n && forall i :: 0 <= i < n ==> !z[i]
  {
    seq(n, _ => false)
  }

  predicate InRange(data: seq<int>, width: nat)
  {
    data == [] || (0 <= data[0] < Pow2(width) && InRange(data[1..], width))
  }

  function Naturals(data: seq<int>, width: nat): (r: seq<nat>)
    requires InRange(data, width)
    ensures |r| == |data|
  {
    if data == [] then [] else [data[0]] + Naturals(data[1..], width)
  }

  /** The bits filled up with zeros to complete groups. */
  function PaddedGroups(b: seq<bool>, width: nat): seq<nat>
    requires width > 0
  {
    var r := Rest(b, width);
    if r == [] then Groups(b, width) else Groups(b, width) + [ValueOf(r + NoBits(width - |r|))]
  }

  /** convertbits, as a function of the bits. */
  function Converted(data: seq<int>, from: nat, to: nat, pad: bool): Option<seq<nat>>
    requires from > 0 && to > 0
  {
    if !InRange(data, from) then None
    else
      var b := AllBits(Naturals(data, from), from);
      var r := Rest(b, to);
      if pad then Some(PaddedGroups(b, to))
      else if |r| >= from || true in r then None
      else Some(Groups(b, to))
  }

  // ---- Bits and values ----

  lemma {:induction false} ValueOfBits(x: nat, n: nat)
    requires x < Pow2(n)
    ensures ValueOf(BitsOf(x, n)) == x
  {
    if n > 0 {
      ValueOfBits(x / 2, n - 1);
      assert BitsOf(x, n)[..n - 1] == BitsOf(x / 2, n - 1);
    }
  }

  lemma {:induction false} BitsOfValue(b: seq<bool>)
    ensures ValueOf(b) < Pow2(|b|) && BitsOf(ValueOf(b), |b|) == b
    decreases |b|
  {
    if b != [] {
      BitsOfValue(b[..|b| - 1]);
      assert b == b[..|b| - 1] + [b[|b| - 1]];
    }
  }

  lemma {:induction false} BitsOfGroups(b: seq<bool>, width: nat)
    requires width > 0
    ensures AllBits(Groups(b, width), width) + Rest(b, width) == b && InRange(Groups(b, width), width)
    decreases |b|
  {
    if |b| >= width {
      BitsOfValue(b[..width]);
      BitsOfGroups(b[width..], width);
      assert Groups(b, width)[1..] == Groups(b[width..], width);
      assert b == b[..width] + b[width..];
    }
  }

  lemma HeadGroup(data: seq<nat>, width: nat, rest: seq<bool>)
    requires data != []
    ensures var b := AllBits(data, width) + rest;
            |b| >= width && b[..width] == BitsOf(data[0], width) && b[width..] == AllBits(data[1..], width) + rest
  {
    hide BitsOf;
    assert AllBits(data, width) + rest == BitsOf(data[0], width) + (AllBits(data[1..], width) + rest);
  }

  lemma {:induction false} GroupsOfBits(data: seq<nat>, width: nat, rest: seq<bool>)
    requires width > 0 && InRange(data, width) && |rest| < width
    ensures Groups(AllBits(data, width) + rest, width) == data && Rest(AllBits(data, width) + rest, width) == rest
    decreases |data|
  {
    if data == [] {
      assert AllBits(data, width) + rest == rest;
    } else {
      ValueOfBits(data[0], width);
      GroupsOfBits(data[1..], width, rest);
      HeadGroup(data, width, rest);
      hide AllBits, BitsOf, ValueOf;
      assert data == [data[0]] + data[1..];
    }
  }

  lemma {:induction false} AllBitsAppend(a: seq<nat>, b: seq<nat>, width: nat)
    ensures AllBits(a + b, width) == AllBits(a, width) + AllBits(b, width)
    decreases |a|
  {
    if a == [] {
      assert a + b == b;
    } else {
      assert (a + b)[1..] == a[1..] + b;
      AllBitsAppend(a[1..], b, width);
    }
  }

  lemma {:induction false} InRangeAppend(a: seq<int>, b: seq<int>, width: nat)
    ensures InRange(a + b, width) <==> InRange(a, width) && InRange(b, width)
    decreases |a|
  {
    if a == [] {
      assert a + b == b;
    } else {
      assert (a + b)[1..] == a[1..] + b;
      InRangeAppend(a[1..], b, width);
    }
  }

  lemma {:induction false} NaturalsAreSame(data: seq<nat>, width: nat)
    requires InRange(data, width)
    ensures Naturals(data, width) == data
    decreases |data|
  {
    if data != [] {
      NaturalsAreSame(data[1..], width);
    }
  }

  lemma OneGroup(x: nat, width: nat)
    requires x < Pow2(width)
    ensures AllBits([x], width) == BitsOf(x, width) && InRange([x], width)
  {
    assert [x][1..] == [];
    assert BitsOf(x, width) + [] == BitsOf(x, width);
  }

  /** Padding adds fewer zeros than one group holds. */
  lemma BitsOfPadded(b: seq<bool>, width: nat)
    requires width > 0
    ensures var s := PaddedGroups(b, width);
            var p := if Rest(b, width) == [] then 0 else width - |Rest(b, width)|;
            p < width && InRange(s, width) && AllBits(s, width) == b + NoBits(p)
  {
    var r := Rest(b, width);
    BitsOfGroups(b, width);
    if r == [] {
      assert b + NoBits(0) == b;
    } else {
      hide Groups, Rest, BitsOf, ValueOf, InRange, AllBits, NoBits;
      var zeros := NoBits(width - |r|);
      BitsOfValue(r + zeros);
      OneGroup(ValueOf(r + zeros), width);
      AllBitsAppend(Groups(b, width), [ValueOf(r + zeros)], width);
      InRangeAppend(Groups(b, width), [ValueOf(r + zeros)], width);
      ConcatAssoc(AllBits(Groups(b, width), width), r, zeros);
    }
  }

  // ---- Round trips ----

  /** Whatever is regrouped into groups that are not larger, with padding, comes back without: for bytes, through
      symbols of five bits. */
  lemma ThereAndBack(data: seq<nat>, from: nat, to: nat)
    requires 0 < to <= from && InRange(data, from)
    ensures Converted(data, from, to, true).Some?
    ensures Converted(Converted(data, from, to, true).value, to, from, false) == Some(data)
  {
    NaturalsAreSame(data, from);
    var b := AllBits(data, from);
    var s := PaddedGroups(b, to);
    BitsOfPadded(b, to);
    NaturalsAreSame(s, to);
    var p := if Rest(b, to) == [] then 0 else to - |Rest(b, to)|;
    GroupsOfBits(data, from, NoBits(p));
  }

  /** The front of grouped bits: all groups but the last, and the front of that one. */
  lemma {:induction false} GroupsOfFront(s: seq<nat>, width: nat, front: seq<bool>, tail: seq<bool>)
    requires width > 0 && InRange(s, width) && front + tail == AllBits(s, width) && 0 < |tail| < width
    ensures s != [] && Groups(front, width) == s[..|s| - 1]
    ensures Rest(front, width) + tail == BitsOf(s[|s| - 1], width) && s[|s| - 1] < Pow2(width)
    decreases |s|
  {
    assert |AllBits(s, width)| == |front| + |tail|;
    assert s != [];
    var b := AllBits(s, width);
    assert b[..width] == BitsOf(s[0], width) && b[width..] == AllBits(s[1..], width);
    if |s| == 1 {
      assert |front| < width;
      assert s[1..] == [];
    } else {
      FrontHasGroup(s, width, front, tail);
      ValueOfBits(s[0], width);
      GroupsOfFront(s[1..], width, front[width..], tail);
      assert s[..|s| - 1] == [s[0]] + s[1..][..|s| - 2];
    }
  }

  lemma FrontHasGroup(s: seq<nat>, width: nat, front: seq<bool>, tail: seq<bool>)
    requires width > 0 && |s| > 1 && front + tail == AllBits(s, width) && |tail| < width
    ensures |front| >= width && front[..width] == BitsOf(s[0], width)
    ensures front[width..] + tail == AllBits(s[1..], width)
  {
    var b := AllBits(s, width);
    assert AllBits(s[1..], width) == BitsOf(s[1], width) + AllBits(s[1..][1..], width);
    assert |b| >= 2 * width;
    assert front[..width] == b[..width];
    assert front[width..] + tail == b[width..];
  }

  /** Filling up the front of grouped bits with zeros gives the groups back, when the bits taken off were zeros. */
  lemma PaddedFront(s: seq<nat>, width: nat, front: seq<bool>, tail: seq<bool>)
    requires width > 0 && InRange(s, width) && front + tail == AllBits(s, width) && |tail| < width && true !in tail
    ensures PaddedGroups(front, width) == s
  {
    if tail == [] {
      assert front == AllBits(s, width) + [];
      GroupsOfBits(s, width, []);
    } else {
      GroupsOfFront(s, width, front, tail);
      var last := s[|s| - 1];
      hide AllBits, Groups, Rest, BitsOf, ValueOf, InRange;
      assert |Rest(front, width)| + |tail| == width;
      forall i | 0 <= i < |tail| ensures !tail[i] {
        assert tail[i] in tail;
      }
      assert tail == NoBits(|tail|);
      ValueOfBits(last, width);
      assert s == s[..|s| - 1] + [last];
    }
  }

  /** Whatever is accepted without padding, into groups that are not smaller, is exactly the padded form of its
      result: for five-bit symbols, through bytes. */
  lemma BackAndThere(data: seq<nat>, from: nat, to: nat)
    requires 0 < from <= to && Converted(data, from, to, false).Some?
    ensures Converted(Converted(data, from, to, false).value, to, from, true) == Some(data)
  {
    NaturalsAreSame(data, from);
    var b := AllBits(data, from);
    BitsOfGroups(b, to);
    NaturalsAreSame(Groups(b, to), to);
    hide AllBits, Groups, Rest, InRange, PaddedGroups, Naturals;
    PaddedFront(data, from, AllBits(Groups(b, to), to), Rest(b, to));
  }

  // ---- The loop ----

  /** x << n, x >> n, and x & ((1 << n) - 1) */
  function ShiftLeft(x: nat, n: nat): nat { if n == 0 then x else 2 * ShiftLeft(x, n - 1) }

  function ShiftRight(x: nat, n: nat): nat { if n == 0 then x else ShiftRight(x / 2, n - 1) }

  function Masked(x: nat, n: nat): nat { if n == 0 then 0 else 2 * Masked(x / 2, n - 1) + x % 2 }

  lemma {:induction false} BitsOfJoined(x: nat, a: nat, y: nat, b: nat)
    requires y < Pow2(b)
    ensures BitsOf(ShiftLeft(x, b) + y, a + b) == BitsOf(x, a) + BitsOf(y, b)
    decreases b
  {
    if b > 0 {
      assert (ShiftLeft(x, b) + y) / 2 == ShiftLeft(x, b - 1) + y / 2;
      BitsOfJoined(x, a, y / 2, b - 1);
    }
  }

  lemma {:induction false} BitsOfSplit(x: nat, a: nat, b: nat)
    ensures BitsOf(x, a + b) == BitsOf(ShiftRight(x, b), a) + BitsOf(x, b)
    decreases b
  {
    if b > 0 {
      BitsOfSplit(x / 2, a, b - 1);
    }
  }

  /** Only the lowest m bits matter for the lowest n <= m. */
  lemma {:induction false} BitsOfMasked(x: nat, m: nat, n: nat)
    requires n <= m
    ensures BitsOf(Masked(x, m), n) == BitsOf(x, n)
    decreases n
  {
    if n > 0 {
      assert Masked(x, m) / 2 == Masked(x / 2, m - 1);
      BitsOfMasked(x / 2, m - 1, n - 1);
    }
  }

  lemma {:induction false} ValueOfLowBits(x: nat, n: nat)
    ensures ValueOf(BitsOf(x, n)) == Masked(x, n)
  {
    if n > 0 {
      ValueOfLowBits(x / 2, n - 1);
      assert BitsOf(x, n)[..n - 1] == BitsOf(x / 2, n - 1);
    }
  }

  lemma {:induction false} MaskedShift(x: nat, n: nat, k: nat)
    ensures Masked(ShiftLeft(x, k), n + k) == ShiftLeft(Masked(x, n), k)
    decreases k
  {
    if k > 0 {
      assert ShiftLeft(x, k) / 2 == ShiftLeft(x, k - 1);
      MaskedShift(x, n, k - 1);
    }
  }

  lemma {:induction false} ShiftLeftZero(x: nat, k: nat)
    ensures ShiftLeft(x, k) == 0 <==> x == 0
  {
    if k > 0 {
      ShiftLeftZero(x, k - 1);
    }
  }

  lemma {:induction false} NoBitsOfZero(x: nat, n: nat)
    ensures true !in BitsOf(x, n) <==> Masked(x, n) == 0
  {
    if n > 0 {
      NoBitsOfZero(x / 2, n - 1);
    }
  }

  /** The next complete group in front of what is left. */
  lemma TakeGroup(b: seq<bool>, ret: seq<nat>, rest: seq<bool>, width: nat)
    requires width > 0 && |rest| >= width
    requires InRange(ret, width) && AllBits(ret, width) + rest == b
    ensures var ret' := ret + [ValueOf(rest[..width])];
            InRange(ret', width) && AllBits(ret', width) + rest[width..] == b
  {
    var g := rest[..width];
    BitsOfValue(g);
    hide AllBits, BitsOf, ValueOf, InRange;
    OneGroup(ValueOf(g), width);
    AllBitsAppend(ret, [ValueOf(g)], width);
    InRangeAppend(ret, [ValueOf(g)], width);
    ConcatSlice(rest, width);
    ConcatAssoc(AllBits(ret, width), g, rest[width..]);
  }

  /** The bits in the accumulator: one group out. */
  lemma GroupOut(acc: nat, to: nat, left: nat)
    ensures var rest := BitsOf(acc, to + left);
            rest[..to] == BitsOf(ShiftRight(acc, left), to) && rest[to..] == BitsOf(acc, left)
            && ValueOf(rest[..to]) == Masked(ShiftRight(acc, left), to)
  {
    hide BitsOf, Masked, ShiftRight, ValueOf;
    BitsOfSplit(acc, to, left);
    ValueOfLowBits(ShiftRight(acc, left), to);
    SliceConcat(BitsOf(ShiftRight(acc, left), to), BitsOf(acc, left));
  }

  /** The bits in the accumulator: one value in. */
  lemma ValueIn(acc: nat, bits: nat, v: nat, from: nat, to: nat)
    requires bits < to && v < Pow2(from) && from > 0
    ensures BitsOf(Masked(ShiftLeft(acc, from) + v, from + to - 1), bits + from) == BitsOf(acc, bits) + BitsOf(v, from)
  {
    BitsOfMasked(ShiftLeft(acc, from) + v, from + to - 1, bits + from);
    BitsOfJoined(acc, bits, v, from);
  }

  lemma {:induction false} NaturalsSnoc(data: seq<int>, v: int, width: nat)
    requires InRange(data, width) && 0 <= v < Pow2(width)
    ensures InRange(data + [v], width) && Naturals(data + [v], width) == Naturals(data, width) + [v]
    decreases |data|
  {
    assert [v][1..] == [];
    if data == [] {
      assert data + [v] == [v];
    } else {
      assert (data + [v])[1..] == data[1..] + [v];
      NaturalsSnoc(data[1..], v, width);
    }
  }

  lemma BitsSnoc(data: seq<int>, v: int, width: nat)
    requires InRange(data, width) && 0 <= v < Pow2(width)
    ensures InRange(data + [v], width)
    ensures AllBits(Naturals(data + [v], width), width) == AllBits(Naturals(data, width), width) + BitsOf(v, width)
  {
    hide AllBits, BitsOf, Naturals, InRange;
    NaturalsSnoc(data, v, width);
    OneGroup(v, width);
    AllBitsAppend(Naturals(data, width), [v], width);
  }

  lemma {:induction false} InRangeAll(data: seq<int>, width: nat, k: nat)
    requires k < |data| && !(0 <= data[k] < Pow2(width))
    ensures !InRange(data, width)
  {
    if k > 0 {
      InRangeAll(data[1..], width, k - 1);
    }
  }

  lemma GroupsAreUnique(b: seq<bool>, ret: seq<nat>, rest: seq<bool>, width: nat)
    requires width > 0 && InRange(ret, width) && |rest| < width && AllBits(ret, width) + rest == b
    ensures Groups(b, width) == ret && Rest(b, width) == rest
  {
    GroupsOfBits(ret, width, rest);
  }

  /** The inner loop: complete groups leave the accumulator. */
  method TakeGroups(acc: nat, bits0: nat, ret0: seq<nat>, to: nat, ghost b: seq<bool>)
    returns (bits: nat, ret: seq<nat>)
    requires to > 0 && InRange(ret0, to) && AllBits(ret0, to) + BitsOf(acc, bits0) == b
    ensures bits < to && InRange(ret, to) && AllBits(ret, to) + BitsOf(acc, bits) == b
  {
    bits, ret := bits0, ret0;
    while bits >= to
      invariant InRange(ret, to) && AllBits(ret, to) + BitsOf(acc, bits) == b
    {
      GroupOut(acc, to, bits - to);
      TakeGroup(b, ret, BitsOf(acc, bits), to);
      bits := bits - to;
      ret := ret + [Masked(ShiftRight(acc, bits), to)];
    }
  }

  lemma Empty(from: nat, to: nat)
    ensures InRange([], from) && InRange([], to) && AllBits([], to) + BitsOf(0, 0) == AllBits(Naturals([], from), from)
  {
  }

  /** convertbits */
  method ConvertBits(data: seq<int>, from: nat, to: nat, pad: bool) returns (r: Option<seq<nat>>)
    requires from > 0 && to > 0
    ensures r == Converted(data, from, to, pad)
  {
    Empty(from, to);
    hide AllBits, BitsOf, Naturals, InRange, Masked, ShiftLeft, Groups, Rest;
    var acc: nat, bits: nat, ret: seq<nat> := 0, 0, [];
    for i := 0 to |data|
      invariant InRange(data[..i], from) && bits < to && InRange(ret, to)
      invariant AllBits(ret, to) + BitsOf(acc, bits) == AllBits(Naturals(data[..i], from), from)
    {
      var v := data[i];
      assert data[..i + 1] == data[..i] + [v];
      if v < 0 || v >= Pow2(from) {
        InRangeAll(data, from, i);
        return None;
      }
      ValueIn(acc, bits, v, from, to);
      BitsSnoc(data[..i], v, from);
      ConcatAssoc(AllBits(ret, to), BitsOf(acc, bits), BitsOf(v, from));
      acc := Masked(ShiftLeft(acc, from) + v, from + to - 1);
      bits := bits + from;
      bits, ret := TakeGroups(acc, bits, ret, to, AllBits(Naturals(data[..i + 1], from), from));
    }
    assert data[..|data|] == data;
    GroupsAreUnique(AllBits(Naturals(data, from), from), ret, BitsOf(acc, bits), to);
    MaskedShift(acc, bits, to - bits);
    ShiftLeftZero(Masked(acc, bits), to - bits);
    if pad {
      if bits > 0 {
        LastGroup(acc, bits, to - bits);
        ret := ret + [Masked(ShiftLeft(acc, to - bits), to)];
      }
    } else {
      NoBitsOfZero(acc, bits);
      if bits >= from || Masked(ShiftLeft(acc, to - bits), to) != 0 {
        return None;
      }
    }
    return Some(ret);
  }

  /** What is left, filled up with zeros. */
  lemma LastGroup(acc: nat, bits: nat, fill: nat)
    ensures ValueOf(BitsOf(acc, bits) + NoBits(fill)) == Masked(ShiftLeft(acc, fill), bits + fill)
  {
    hide BitsOf, ShiftLeft, Masked, ValueOf, NoBits;
    BitsOfJoined(acc, bits, 0, fill);
    ValueOfLowBits(ShiftLeft(acc, fill), bits + fill);
    BitsOfZero(fill);
  }

  lemma BitsOfZero(n: nat)
    ensures BitsOf(0, n) == NoBits(n)
  {
    var z := BitsOf(0, n);
    NoBitsOfZero(0, n);
    MaskedZero(n);
    forall i | 0 <= i < |z| ensures !z[i] {
      assert z[i] in z;
    }
  }

  lemma {:induction false} MaskedZero(n: nat)
    ensures Masked(0, n) == 0
  {
    if n > 0 {
      MaskedZero(n - 1);
    }
  }
}
