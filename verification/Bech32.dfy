/** Bech32 and Bech32m (BIP-173 and BIP-350): the checksum over GF(2), and the text form. */
module Bech32 {
  import opened Common

  /** A value of five bits, and the 30-bit checksum register. */
  type Symbol = x: int | 0 <= x < 32
  type Check = bv30

  const BECH32_CONST: Check := 1
  const BECH32M_CONST: Check := 0x2bc830a3

  // ---- Exclusive or ----

  function Xor(a: Check, b: Check): Check { a ^ b }

  lemma XorWithZero(a: Check)
    ensures Xor(a, 0) == a && Xor(0, a) == a && Xor(a, a) == 0
  {
  }

  lemma RawZero(a: Check, b: Check)
    ensures a ^ b == 0 <==> a == b
  {
  }

  lemma XorZero(a: Check, b: Check)
    ensures Xor(a, b) == 0 <==> a == b
  {
    RawZero(a, b);
  }

  lemma RawAssoc(a: Check, b: Check, c: Check)
    ensures (a ^ b) ^ c == a ^ (b ^ c)
  {
  }

  lemma XorAssoc(a: Check, b: Check, c: Check)
    ensures Xor(Xor(a, b), c) == Xor(a, Xor(b, c))
  {
    RawAssoc(a, b, c);
  }

  lemma XorComm(a: Check, b: Check)
    ensures Xor(a, b) == Xor(b, a)
  {
  }

  lemma XorSwap(a: Check, b: Check, c: Check, d: Check)
    ensures Xor(Xor(a, b), Xor(c, d)) == Xor(Xor(a, c), Xor(b, d))
  {
    hide Xor;
    XorAssoc(a, b, Xor(c, d));
    XorAssoc(b, c, d);
    XorComm(b, c);
    XorAssoc(c, b, d);
    XorAssoc(a, c, Xor(b, d));
  }

  // ---- The checksum ----

  function Tap(top: Check, mask: Check, g: Check): Check { if top & mask != 0 then g else 0 }

  /** What the five bits that are shifted out feed back. */
  function Feedback(top: Check): Check
  {
    Xor(Xor(Xor(Xor(Tap(top, 1, 0x3b6a57b2), Tap(top, 2, 0x26508e6d)), Tap(top, 4, 0x1ea119fa)),
            Tap(top, 8, 0x3d4233dd)), Tap(top, 16, 0x2a1462b3))
  }

  function Shifted(chk: Check): Check { (chk & 0x1ffffff) << 5 }

  function Step(chk: Check, v: Check): Check
  {
    Xor(Xor(Shifted(chk), v), Feedback(chk >> 25))
  }

  /** The register after some values. */
  function Residue(chk: Check, values: seq<Check>): Check
    decreases |values|
  {
    if values == [] then chk else Residue(Step(chk, values[0]), values[1..])
  }

  const GENERATOR: seq<Check> := [0x3b6a57b2, 0x26508e6d, 0x1ea119fa, 0x3d4233dd, 0x2a1462b3]

  /** The register after n turns of the inner loop. */
  function Tapped(chk: Check, top: Check, n: nat): Check
    requires n <= 5
  {
    if n == 0 then chk
    else Xor(Tapped(chk, top, n - 1), if (top >> (n - 1)) & 1 != 0 then GENERATOR[n - 1] else 0)
  }

  lemma BitOfShift(top: Check)
    ensures (top >> 0) & 1 != 0 <==> top & 1 != 0
    ensures (top >> 1) & 1 != 0 <==> top & 2 != 0
    ensures (top >> 2) & 1 != 0 <==> top & 4 != 0
    ensures (top >> 3) & 1 != 0 <==> top & 8 != 0
    ensures (top >> 4) & 1 != 0 <==> top & 16 != 0
  {
  }

  lemma TappedIsFeedback(chk: Check, top: Check)
    ensures Tapped(chk, top, 5) == Xor(chk, Feedback(top))
  {
    BitOfShift(top);
    hide Xor;
    var t1, t2, t3 := Tap(top, 1, 0x3b6a57b2), Tap(top, 2, 0x26508e6d), Tap(top, 4, 0x1ea119fa);
    var t4, t5 := Tap(top, 8, 0x3d4233dd), Tap(top, 16, 0x2a1462b3);
    assert Tapped(chk, top, 0) == chk;
    assert Tapped(chk, top, 1) == Xor(chk, t1);
    assert Tapped(chk, top, 2) == Xor(Xor(chk, t1), t2);
    assert Tapped(chk, top, 3) == Xor(Xor(Xor(chk, t1), t2), t3);
    assert Tapped(chk, top, 4) == Xor(Xor(Xor(Xor(chk, t1), t2), t3), t4);
    assert Tapped(chk, top, 5) == Xor(Xor(Xor(Xor(Xor(chk, t1), t2), t3), t4), t5);
    hide Tap;
    XorAssoc(chk, t1, t2);
    XorAssoc(chk, Xor(t1, t2), t3);
    XorAssoc(chk, Xor(Xor(t1, t2), t3), t4);
    XorAssoc(chk, Xor(Xor(Xor(t1, t2), t3), t4), t5);
  }

  /** The inner loop of bech32_polymod. */
  method FeedBack(start: Check, top: Check) returns (chk: Check)
    ensures chk == Xor(start, Feedback(top))
  {
    hide Xor, Feedback;
    chk := start;
    for i := 0 to 5
      invariant chk == Tapped(start, top, i)
    {
      chk := Xor(chk, if (top >> i) & 1 != 0 then GENERATOR[i] else 0);
    }
    TappedIsFeedback(start, top);
  }

  /** bech32_polymod */
  method Polymod(values: seq<Check>) returns (chk: Check)
    ensures chk == Residue(1, values)
  {
    chk := 1;
    for k := 0 to |values|
      invariant Residue(chk, values[k..]) == Residue(1, values)
    {
      assert values[k..][1..] == values[k + 1..];
      var top := chk >> 25;
      chk := FeedBack(((chk & 0x1ffffff) << 5) ^ values[k], top);
    }
  }

  // ---- Linearity ----

  lemma BitOfXor(a: Check, b: Check)
    ensures (a ^ b) & 1 != 0 <==> (a & 1 != 0) != (b & 1 != 0)
    ensures (a ^ b) & 2 != 0 <==> (a & 2 != 0) != (b & 2 != 0)
    ensures (a ^ b) & 4 != 0 <==> (a & 4 != 0) != (b & 4 != 0)
    ensures (a ^ b) & 8 != 0 <==> (a & 8 != 0) != (b & 8 != 0)
    ensures (a ^ b) & 16 != 0 <==> (a & 16 != 0) != (b & 16 != 0)
  {
  }

  lemma TapLinear(a: Check, b: Check, mask: Check, g: Check)
    requires mask in {1, 2, 4, 8, 16}
    ensures Tap(Xor(a, b), mask, g) == Xor(Tap(a, mask, g), Tap(b, mask, g))
  {
    BitOfXor(a, b);
    XorWithZero(g);
    XorWithZero(0);
  }

  lemma FeedbackLinear(a: Check, b: Check)
    ensures Feedback(Xor(a, b)) == Xor(Feedback(a), Feedback(b))
  {
    TapLinear(a, b, 1, 0x3b6a57b2);
    TapLinear(a, b, 2, 0x26508e6d);
    TapLinear(a, b, 4, 0x1ea119fa);
    TapLinear(a, b, 8, 0x3d4233dd);
    TapLinear(a, b, 16, 0x2a1462b3);
    hide Tap, Xor;
    var a1, b1 := Tap(a, 1, 0x3b6a57b2), Tap(b, 1, 0x3b6a57b2);
    var a2, b2 := Tap(a, 2, 0x26508e6d), Tap(b, 2, 0x26508e6d);
    var a3, b3 := Tap(a, 4, 0x1ea119fa), Tap(b, 4, 0x1ea119fa);
    var a4, b4 := Tap(a, 8, 0x3d4233dd), Tap(b, 8, 0x3d4233dd);
    var a5, b5 := Tap(a, 16, 0x2a1462b3), Tap(b, 16, 0x2a1462b3);
    XorSwap(a1, b1, a2, b2);
    XorSwap(Xor(a1, a2), Xor(b1, b2), a3, b3);
    XorSwap(Xor(Xor(a1, a2), a3), Xor(Xor(b1, b2), b3), a4, b4);
    XorSwap(Xor(Xor(Xor(a1, a2), a3), a4), Xor(Xor(Xor(b1, b2), b3), b4), a5, b5);
  }

  lemma ShiftLinear(a: Check, b: Check)
    ensures Shifted(Xor(a, b)) == Xor(Shifted(a), Shifted(b))
    ensures Xor(a, b) >> 25 == Xor(a >> 25, b >> 25)
  {
  }

  lemma StepLinear(a: Check, b: Check, v: Check, w: Check)
    ensures Step(Xor(a, b), Xor(v, w)) == Xor(Step(a, v), Step(b, w))
  {
    ShiftLinear(a, b);
    FeedbackLinear(a >> 25, b >> 25);
    hide Feedback, Xor, Shifted;
    XorSwap(Shifted(a), Shifted(b), v, w);
    XorSwap(Xor(Shifted(a), v), Xor(Shifted(b), w), Feedback(a >> 25), Feedback(b >> 25));
  }

  function XorAll(u: seq<Check>, v: seq<Check>): seq<Check>
    requires |u| == |v|
  {
    if u == [] then [] else [Xor(u[0], v[0])] + XorAll(u[1..], v[1..])
  }

  /** The register is a linear function of where it starts and what it is fed. */
  lemma {:induction false} ResidueLinear(a: Check, b: Check, u: seq<Check>, v: seq<Check>)
    requires |u| == |v|
    ensures Residue(Xor(a, b), XorAll(u, v)) == Xor(Residue(a, u), Residue(b, v))
    decreases |u|
  {
    hide Xor, Step;
    if u != [] {
      StepLinear(a, b, u[0], v[0]);
      assert XorAll(u, v)[1..] == XorAll(u[1..], v[1..]);
      ResidueLinear(Step(a, u[0]), Step(b, v[0]), u[1..], v[1..]);
    }
  }

  lemma {:induction false} ResidueAppend(chk: Check, u: seq<Check>, v: seq<Check>)
    ensures Residue(chk, u + v) == Residue(Residue(chk, u), v)
    decreases |u|
  {
    hide Step;
    if u == [] {
      assert u + v == v;
    } else {
      assert (u + v)[1..] == u[1..] + v;
      ResidueAppend(Step(chk, u[0]), u[1..], v);
    }
  }

  // ---- No six symbols cancel ----

  /** A step from a register that is not zero does not lead to zero. */
  lemma StepNonzero(chk: Check)
    ensures Step(chk, 0) == 0 <==> chk == 0
  {
  }

  predicate AllZero(values: seq<Check>)
  {
    values == [] || (values[0] == 0 && AllZero(values[1..]))
  }

  lemma {:induction false} ZerosKeepNonzero(chk: Check, zeros: seq<Check>)
    requires AllZero(zeros)
    ensures Residue(chk, zeros) == 0 <==> chk == 0
    decreases |zeros|
  {
    hide Step;
    if zeros != [] {
      StepNonzero(chk);
      ZerosKeepNonzero(Step(chk, 0), zeros[1..]);
    }
  }

  /** How large the register may be so that n more symbols fit. */
  function Room(n: nat): Check
    requires 1 <= n <= 6
  {
    match n
    case 6 => 0x1
    case 5 => 0x20
    case 4 => 0x400
    case 3 => 0x8000
    case 2 => 0x10_0000
    case _ => 0x200_0000
  }

  predicate Small(v: Check) { v < 32 }

  /** n more symbols can be shifted in before anything is fed back. */
  predicate Fits(chk: Check, n: nat)
  {
    if 1 <= n <= 6 then chk < Room(n) else n == 0
  }

  predicate FiveBits(values: seq<Check>)
  {
    values == [] || (Small(values[0]) && FiveBits(values[1..]))
  }

  lemma SmallStep(chk: Check, v: Check, n: nat)
    requires n >= 1 && Fits(chk, n) && Small(v)
    ensures Fits(Step(chk, v), n - 1)
    ensures Step(chk, v) == 0 <==> chk == 0 && v == 0
  {
  }

  lemma {:induction false} SixNeverCancel(chk: Check, values: seq<Check>)
    requires FiveBits(values) && Fits(chk, |values|)
    ensures Residue(chk, values) == 0 <==> chk == 0 && AllZero(values)
    decreases |values|
  {
    if values != [] {
      hide Step, Fits, Small;
      SmallStep(chk, values[0], |values|);
      SixNeverCancel(Step(chk, values[0]), values[1..]);
    }
  }

  lemma ZeroFits(n: nat)
    requires n <= 6
    ensures Fits(0, n)
  {
  }

  /** Two texts of values that differ only within six neighbours leave different registers, however long they are. */
  lemma BurstChangesResidue(chk: Check, before: seq<Check>, u: seq<Check>, v: seq<Check>, after: seq<Check>)
    requires |u| == |v| <= 6 && FiveBits(u) && FiveBits(v) && u != v
    ensures Residue(chk, before + u + after) != Residue(chk, before + v + after)
  {
    hide Residue, Fits, Small, Xor;
    ZeroFits(|u|);
    var s := Residue(chk, before);
    var d := XorAll(u, v);
    ResidueAppend(chk, before + u, after);
    ResidueAppend(chk, before, u);
    ResidueAppend(chk, before + v, after);
    ResidueAppend(chk, before, v);
    ResidueLinear(s, s, u, v);
    ResidueLinear(Residue(s, u), Residue(s, v), after, after);
    XorWithZero(s);
    DifferenceIsSmall(u, v);
    SixNeverCancel(0, d);
    XorAllSame(after);
    ZerosKeepNonzero(Residue(0, d), XorAll(after, after));
    XorZero(Residue(Residue(s, u), after), Residue(Residue(s, v), after));
  }

  lemma {:induction false} XorAllSame(u: seq<Check>)
    ensures |XorAll(u, u)| == |u| && AllZero(XorAll(u, u))
    decreases |u|
  {
    hide Xor;
    if u != [] {
      XorWithZero(u[0]);
      XorAllSame(u[1..]);
      assert XorAll(u, u)[1..] == XorAll(u[1..], u[1..]);
    }
  }

  lemma {:induction false} DifferenceIsSmall(u: seq<Check>, v: seq<Check>)
    requires |u| == |v| && FiveBits(u) && FiveBits(v)
    ensures |XorAll(u, v)| == |u| && FiveBits(XorAll(u, v)) && (AllZero(XorAll(u, v)) <==> u == v)
    decreases |u|
  {
    hide Xor, Small;
    if u != [] {
      XorSmall(u[0], v[0]);
      DifferenceIsSmall(u[1..], v[1..]);
      assert XorAll(u, v)[1..] == XorAll(u[1..], v[1..]);
      assert u == [u[0]] + u[1..] && v == [v[0]] + v[1..];
    }
  }

  lemma XorSmall(a: Check, b: Check)
    requires Small(a) && Small(b)
    ensures Small(Xor(a, b)) && (Xor(a, b) == 0 <==> a == b)
  {
  }

  // ---- Symbols and the register ----

  function Widened(v: Symbol): (c: Check)
    ensures Small(c)
  {
    assert v as Check < 32 by {
      SymbolBits(v);
    }
    v as Check
  }

  lemma SymbolBits(v: Symbol)
    ensures v as Check < 32 && (v as Check) as int == v
  {
  }

  function SymbolOf(c: Check): Symbol
    requires Small(c)
  {
    c as int
  }

  lemma SymbolRoundTrip(v: Symbol, c: Check)
    ensures SymbolOf(Widened(v)) == v
    ensures Small(c) ==> Widened(SymbolOf(c)) == c
  {
    SymbolBits(v);
    if Small(c) {
      CheckBits(c);
    }
  }

  lemma CheckBits(c: Check)
    requires c < 32
    ensures (c as int) as Check == c
  {
  }

  function WidenAll(data: seq<Symbol>): (r: seq<Check>)
    ensures |r| == |data|
  {
    if data == [] then [] else [Widened(data[0])] + WidenAll(data[1..])
  }

  lemma {:induction false} WidenAllAppend(a: seq<Symbol>, b: seq<Symbol>)
    ensures WidenAll(a + b) == WidenAll(a) + WidenAll(b)
    decreases |a|
  {
    hide Widened;
    if a == [] {
      assert a + b == b;
    } else {
      assert (a + b)[1..] == a[1..] + b;
      WidenAllAppend(a[1..], b);
    }
  }

  lemma {:induction false} WidenAllInjective(a: seq<Symbol>, b: seq<Symbol>)
    requires |a| == |b|
    ensures FiveBits(WidenAll(a)) && (WidenAll(a) == WidenAll(b) ==> a == b)
    decreases |a|
  {
    hide Small, Widened, SymbolOf;
    if a != [] {
      WidenAllInjective(a[1..], b[1..]);
      SymbolRoundTrip(a[0], 0);
      SymbolRoundTrip(b[0], 0);
      assert WidenAll(a)[0] == Widened(a[0]) && WidenAll(a)[1..] == WidenAll(a[1..]);
      assert WidenAll(b)[0] == Widened(b[0]) && WidenAll(b)[1..] == WidenAll(b[1..]);
      assert a == [a[0]] + a[1..] && b == [b[0]] + b[1..];
    }
  }

  /** The i-th of the six symbols of a register, highest first. */
  function Part(p: Check, i: nat): (c: Check)
    requires i < 6
    ensures Small(c)
  {
    match i
    case 0 => (p >> 25) & 31
    case 1 => (p >> 20) & 31
    case 2 => (p >> 15) & 31
    case 3 => (p >> 10) & 31
    case 4 => (p >> 5) & 31
    case _ => p & 31
  }

  /** The first i symbols of a register. */
  function Leading(p: Check, i: nat): Check
    requires i <= 6
  {
    match i
    case 0 => 0
    case 1 => p >> 25
    case 2 => p >> 20
    case 3 => p >> 15
    case 4 => p >> 10
    case 5 => p >> 5
    case _ => p
  }

  function Upper(p: Check): Check { p >> 5 }

  function Lower(p: Check): (c: Check)
    ensures Small(c)
  {
    p & 31
  }

  lemma Shift25(p: Check)
    ensures (p >> 25) >> 5 == 0
  {
  }

  lemma Shift20(p: Check)
    ensures (p >> 20) >> 5 == p >> 25
  {
  }

  lemma Shift15(p: Check)
    ensures (p >> 15) >> 5 == p >> 20
  {
  }

  lemma Shift10(p: Check)
    ensures (p >> 10) >> 5 == p >> 15
  {
  }

  lemma Shift5(p: Check)
    ensures (p >> 5) >> 5 == p >> 10
  {
  }

  lemma LeadingShift(p: Check, i: nat)
    requires i < 6
    ensures Leading(p, i) == Upper(Leading(p, i + 1))
  {
    match i {
      case 0 => Shift25(p);
      case 1 => Shift20(p);
      case 2 => Shift15(p);
      case 3 => Shift10(p);
      case 4 => Shift5(p);
      case _ =>
    }
  }

  lemma PartIsLowest(p: Check, i: nat)
    requires i < 6
    ensures Part(p, i) == Lower(Leading(p, i + 1))
  {
    hide Small;
    match i {
      case 0 =>
      case 1 =>
      case 2 =>
      case 3 =>
      case 4 =>
      case _ =>
    }
  }

  lemma Rejoined(p: Check)
    ensures ((p >> 5) << 5) | (p & 31) == p
  {
  }

  lemma UpperIsSmall(p: Check)
    ensures Upper(p) < 0x200_0000
  {
  }

  lemma SmallStepIs(chk: Check, v: Check)
    requires chk < 0x200_0000 && Small(v)
    ensures Step(chk, v) == (chk << 5) | v
  {
  }

  /** The register before its last symbol was shifted in. */
  lemma LastStep(p: Check)
    ensures Step(Upper(p), Lower(p)) == p
  {
    hide Step, Small;
    Rejoined(p);
    UpperIsSmall(p);
    SmallStepIs(Upper(p), Lower(p));
  }

  lemma LeadingStep(p: Check, i: nat)
    requires i < 6
    ensures Step(Leading(p, i), Part(p, i)) == Leading(p, i + 1)
  {
    hide Step, Small, Leading, Part, Upper, Lower;
    LeadingShift(p, i);
    PartIsLowest(p, i);
    LastStep(Leading(p, i + 1));
  }

  function Parts(p: Check, i: nat): (r: seq<Check>)
    requires i <= 6
    ensures |r| == 6 - i
    decreases 6 - i
  {
    if i == 6 then [] else [Part(p, i)] + Parts(p, i + 1)
  }

  /** Six symbols fed into an empty register stand in it as they are. */
  lemma {:induction false} ResidueOfParts(p: Check, i: nat)
    requires i <= 6
    ensures Residue(Leading(p, i), Parts(p, i)) == p
    decreases 6 - i
  {
    assert Leading(p, 6) == p;
    hide Step, Part, Leading, Small;
    if i < 6 {
      LeadingStep(p, i);
      ResidueOfParts(p, i + 1);
      assert Parts(p, i)[1..] == Parts(p, i + 1);
    }
  }

  // ---- Creating and verifying a checksum ----

  datatype Encoding = BECH32 | BECH32M

  function ConstantOf(e: Encoding): Check { if e.BECH32M? then BECH32M_CONST else BECH32_CONST }

  function HighBits(c: char): Check { (c as int / 32) as Check }

  function LowBits(c: char): Check { (c as int % 32) as Check }

  /** bech32_hrp_expand */
  function Expanded(hrp: string): seq<Check>
  {
    seq(|hrp|, i requires 0 <= i < |hrp| => HighBits(hrp[i])) + [0]
    + seq(|hrp|, i requires 0 <= i < |hrp| => LowBits(hrp[i]))
  }

  /** bech32_verify_checksum */
  function Verify(hrp: string, data: seq<Symbol>): Option<Encoding>
  {
    var check := Residue(1, Expanded(hrp) + WidenAll(data));
    if check == BECH32_CONST then Some(BECH32) else if check == BECH32M_CONST then Some(BECH32M) else None
  }

  const SIX_ZEROS: seq<Check> := [0, 0, 0, 0, 0, 0]

  function Narrowed(values: seq<Check>): (r: seq<Symbol>)
    requires FiveBits(values)
    ensures |r| == |values|
  {
    if values == [] then [] else [SymbolOf(values[0])] + Narrowed(values[1..])
  }

  lemma {:induction false} WidenOfNarrowed(values: seq<Check>)
    requires FiveBits(values)
    ensures WidenAll(Narrowed(values)) == values
    decreases |values|
  {
    hide Small, Widened, SymbolOf;
    if values != [] {
      SymbolRoundTrip(0, values[0]);
      WidenOfNarrowed(values[1..]);
      assert Narrowed(values)[1..] == Narrowed(values[1..]);
    }
  }

  lemma {:induction false} PartsAreSmall(p: Check, i: nat)
    requires i <= 6
    ensures FiveBits(Parts(p, i))
    decreases 6 - i
  {
    hide Small, Part;
    if i < 6 {
      PartsAreSmall(p, i + 1);
      assert Parts(p, i)[1..] == Parts(p, i + 1);
    }
  }

  /** What the register has to be changed by to end in the constant. */
  function Missing(e: Encoding, hrp: string, data: seq<Symbol>): Check
  {
    Xor(Residue(1, Expanded(hrp) + WidenAll(data) + SIX_ZEROS), ConstantOf(e))
  }

  /** bech32_create_checksum */
  function Checksum(e: Encoding, hrp: string, data: seq<Symbol>): (r: seq<Symbol>)
    ensures |r| == 6
  {
    var p := Missing(e, hrp, data);
    PartsAreSmall(p, 0);
    Narrowed(Parts(p, 0))
  }

  lemma {:induction false} XorAllZeros(zeros: seq<Check>, v: seq<Check>)
    requires AllZero(zeros) && |zeros| == |v|
    ensures XorAll(zeros, v) == v
    decreases |v|
  {
    hide Xor;
    if v != [] {
      XorWithZero(v[0]);
      XorAllZeros(zeros[1..], v[1..]);
    }
  }

  lemma SixZerosAreZero()
    ensures AllZero(SIX_ZEROS)
  {
    assert SIX_ZEROS[5..][1..] == [];
    assert AllZero(SIX_ZEROS[5..]);
    assert SIX_ZEROS[4..][1..] == SIX_ZEROS[5..];
    assert SIX_ZEROS[3..][1..] == SIX_ZEROS[4..];
    assert SIX_ZEROS[2..][1..] == SIX_ZEROS[3..];
    assert SIX_ZEROS[1..][1..] == SIX_ZEROS[2..];
    assert AllZero(SIX_ZEROS[3..]);
  }

  /** Six symbols at the end are added to the register. */
  lemma ResidueOfLastSix(chk: Check, p: Check)
    ensures Residue(chk, Parts(p, 0)) == Xor(Residue(chk, SIX_ZEROS), p)
  {
    hide Xor, Residue, Parts, Leading;
    SixZerosAreZero();
    XorAllZeros(SIX_ZEROS, Parts(p, 0));
    ResidueLinear(chk, 0, SIX_ZEROS, Parts(p, 0));
    XorWithZero(chk);
    assert Leading(p, 0) == 0 by {
      LeadingOfNone(p);
    }
    ResidueOfParts(p, 0);
  }

  lemma LeadingOfNone(p: Check)
    ensures Leading(p, 0) == 0
  {
  }

  function CheckOf(hrp: string, data: seq<Symbol>): Check { Residue(1, Expanded(hrp) + WidenAll(data)) }

  lemma XorCancels(r: Check, c: Check)
    ensures Xor(r, Xor(r, c)) == c
  {
    hide Xor;
    XorAssoc(r, r, c);
    XorWithZero(r);
    XorWithZero(c);
  }

  lemma CheckOfChecksum(e: Encoding, hrp: string, data: seq<Symbol>)
    ensures CheckOf(hrp, data + Checksum(e, hrp, data)) == ConstantOf(e)
  {
    var values := Expanded(hrp) + WidenAll(data);
    var p := Missing(e, hrp, data);
    hide Xor, Residue, Parts, Narrowed, Expanded, ConstantOf, WidenAll, FiveBits;
    PartsAreSmall(p, 0);
    WidenOfNarrowed(Parts(p, 0));
    WidenAllAppend(data, Checksum(e, hrp, data));
    assert Expanded(hrp) + (WidenAll(data) + Parts(p, 0)) == values + Parts(p, 0);
    ResidueAppend(1, values, Parts(p, 0));
    ResidueAppend(1, values, SIX_ZEROS);
    ResidueOfLastSix(Residue(1, values), p);
    XorCancels(Residue(1, values + SIX_ZEROS), ConstantOf(e));
  }

  /** What was given a checksum verifies, as the encoding it was made for. */
  lemma ChecksumVerifies(e: Encoding, hrp: string, data: seq<Symbol>)
    ensures Verify(hrp, data + Checksum(e, hrp, data)) == Some(e)
  {
    CheckOfChecksum(e, hrp, data);
    hide Residue, Checksum, Expanded, WidenAll;
  }

  lemma CheckOfThree(hrp: string, a: seq<Symbol>, b: seq<Symbol>, c: seq<Symbol>)
    ensures CheckOf(hrp, a + b + c) == Residue(1, (Expanded(hrp) + WidenAll(a)) + WidenAll(b) + WidenAll(c))
  {
    hide Residue, Expanded;
    WidenAllAppend(a + b, c);
    WidenAllAppend(a, b);
    assert Expanded(hrp) + (WidenAll(a) + WidenAll(b) + WidenAll(c))
        == (Expanded(hrp) + WidenAll(a)) + WidenAll(b) + WidenAll(c);
  }

  lemma SameEncodingSameCheck(hrp: string, data: seq<Symbol>, data': seq<Symbol>)
    requires Verify(hrp, data).Some? && Verify(hrp, data) == Verify(hrp, data')
    ensures CheckOf(hrp, data) == CheckOf(hrp, data')
  {
    hide Residue, Expanded, WidenAll;
  }

  /** Changing data symbols within six neighbours, and so any single one, of a string of any length that verifies never
      verifies under the same encoding. */
  lemma BurstIsDetected(hrp: string, before: seq<Symbol>, u: seq<Symbol>, v: seq<Symbol>, after: seq<Symbol>)
    requires |u| == |v| <= 6 && u != v && Verify(hrp, before + u + after).Some?
    ensures Verify(hrp, before + v + after) != Verify(hrp, before + u + after)
  {
    hide Residue, Expanded, CheckOf, Verify, WidenAll, FiveBits;
    CheckOfThree(hrp, before, u, after);
    CheckOfThree(hrp, before, v, after);
    WidenAllInjective(u, v);
    WidenAllInjective(v, u);
    BurstChangesResidue(1, Expanded(hrp) + WidenAll(before), WidenAll(u), WidenAll(v), WidenAll(after));
    if Verify(hrp, before + u + after) == Verify(hrp, before + v + after) {
      SameEncodingSameCheck(hrp, before + u + after, before + v + after);
    }
  }

  lemma SingleErrorIsDetected(hrp: string, data: seq<Symbol>, k: nat, v: Symbol)
    requires k < |data| && v != data[k] && Verify(hrp, data).Some?
    ensures Verify(hrp, data[k := v]) != Verify(hrp, data)
  {
    hide Verify;
    assert data == data[..k] + [data[k]] + data[k + 1..];
    assert data[k := v] == data[..k] + [v] + data[k + 1..];
    BurstIsDetected(hrp, data[..k], [data[k]], [v], data[k + 1..]);
  }

  /** There is exactly one checksum for an encoding. */
  lemma ChecksumIsUnique(e: Encoding, hrp: string, data: seq<Symbol>, c: seq<Symbol>)
    requires |c| == 6 && Verify(hrp, data + c) == Some(e)
    ensures c == Checksum(e, hrp, data)
  {
    hide Verify, Checksum;
    var right := Checksum(e, hrp, data);
    ChecksumVerifies(e, hrp, data);
    assert data + c + [] == data + c && data + right + [] == data + right;
    if c != right {
      BurstIsDetected(hrp, data, c, right, []);
    }
  }
}
