/** The checksum covers the human-readable part: a changed character of it changes two values, as far apart as the part
    is long, and these never cancel in texts of the length that bech32_decode accepts. */
module Bech32Hrp {
  import opened Bech32

  // ---- Two changed values ----

  /** The register after n zeros. */
  function Drift(n: nat, chk: Check): Check
  {
    if n == 0 then chk else Drift(n - 1, Step(chk, 0))
  }

  lemma {:induction false} DriftOfZeros(chk: Check, zeros: seq<Check>)
    requires AllZero(zeros)
    ensures Residue(chk, zeros) == Drift(|zeros|, chk)
    decreases |zeros|
  {
    hide Step;
    if zeros != [] {
      DriftOfZeros(Step(chk, 0), zeros[1..]);
    }
  }

  lemma {:induction false} DriftLast(n: nat, chk: Check)
    ensures Step(Drift(n, chk), 0) == Drift(n + 1, chk)
  {
    hide Step;
    if n > 0 {
      DriftLast(n - 1, Step(chk, 0));
    }
  }

  lemma StepOfSum(chk: Check, v: Check)
    ensures Step(chk, v) == Xor(Step(chk, 0), v)
  {
    hide Xor, Shifted, Feedback;
    var s, f := Shifted(chk), Feedback(chk >> 25);
    XorWithZero(s);
    XorAssoc(s, v, f);
    XorComm(v, f);
    XorAssoc(s, f, v);
  }

  lemma StepFromZero(v: Check)
    ensures Step(0, v) == v
  {
    hide Xor, Shifted, Feedback;
    StepOfSum(0, v);
    StepNonzero(0);
    XorWithZero(v);
  }

  /** Two changes, with values in between, leave the same register exactly if the first one drifts to the second. */
  lemma TwoChanges(
    chk: Check, a: seq<Check>, x: Check, x': Check, b: seq<Check>, y: Check, y': Check, c: seq<Check>)
    ensures Residue(chk, a + [x] + b + [y] + c) == Residue(chk, a + [x'] + b + [y'] + c) <==>
              Drift(|b| + 1, Xor(x, x')) == Xor(y, y')
  {
    hide Step, Xor, Residue;
    var s := Residue(chk, a);
    var p, p' := Step(s, x), Step(s, x');
    var q, q' := Residue(p, b), Residue(p', b);
    var r, r' := Step(q, y), Step(q', y');
    Unrolled(chk, a, x, b, y, c);
    Unrolled(chk, a, x', b, y', c);
    var d := Drift(|b|, Xor(x, x'));
    assert Xor(p, p') == Xor(x, x') by {
      StepLinear(s, s, x, x');
      XorWithZero(s);
      StepFromZero(Xor(x, x'));
    }
    assert Xor(q, q') == d by {
      ResidueLinear(p, p', b, b);
      XorAllSame(b);
      DriftOfZeros(Xor(x, x'), XorAll(b, b));
    }
    assert Xor(r, r') == Xor(Drift(|b| + 1, Xor(x, x')), Xor(y, y')) by {
      StepLinear(q, q', y, y');
      StepOfSum(d, Xor(y, y'));
      DriftLast(|b|, Xor(x, x'));
    }
    ResidueLinear(r, r', c, c);
    XorAllSame(c);
    ZerosKeepNonzero(Xor(r, r'), XorAll(c, c));
    XorZero(Residue(r, c), Residue(r', c));
    XorZero(Drift(|b| + 1, Xor(x, x')), Xor(y, y'));
  }

  lemma Unrolled(chk: Check, a: seq<Check>, x: Check, b: seq<Check>, y: Check, c: seq<Check>)
    ensures Residue(chk, a + [x] + b + [y] + c) == Residue(Step(Residue(Step(Residue(chk, a), x), b), y), c)
  {
    hide Step, Residue;
    ResidueAppend(chk, a + [x] + b + [y], c);
    ResidueAppend(chk, a + [x] + b, [y]);
    ResidueAppend(chk, a + [x], b);
    ResidueAppend(chk, a, [x]);
    ResidueOfOne(Residue(chk, a), x);
    ResidueOfOne(Residue(Step(Residue(chk, a), x), b), y);
  }

  lemma ResidueOfOne(chk: Check, v: Check)
    ensures Residue(chk, [v]) == Step(chk, v)
  {
    hide Step;
    assert [v][1..] == [];
  }

  // ---- How far apart ----

  /** Neither of the two registers, nor their sum, is a single value after one to n zeros. */
  predicate StaysApart(a: Check, b: Check, n: nat)
    decreases n
  {
    n == 0 || (AreApart(Step(a, 0), Step(b, 0)) && StaysApart(Step(a, 0), Step(b, 0), n - 1))
  }

  predicate AreApart(a: Check, b: Check) { !Small(a) && !Small(b) && !Small(Xor(a, b)) }

  lemma OneStepApart(a: Check, b: Check, a': Check, b': Check, n: nat)
    requires n > 0 && Step(a, 0) == a' && Step(b, 0) == b' && AreApart(a', b') && StaysApart(a', b', n - 1)
    ensures StaysApart(a, b, n)
  {
  }

  lemma ApartAtEnd(a: Check, b: Check)
    ensures StaysApart(a, b, 0)
  {
  }

  lemma ApartFrom63()
    ensures StaysApart(0x18251ff4, 0x304a3ae1, 21)
  {
    hide StaysApart;
    ApartAtEnd(0x3def8c4c, 0x2b5b9898);
    OneStepApart(0x265609b9, 0x1eac135b, 0x3def8c4c, 0x2b5b9898, 1);
    OneStepApart(0x3c4f8e7a, 0x2a8b99fd, 0x265609b9, 0x1eac135b, 2);
    OneStepApart(0x91774bc, 0x10be4d51, 0x3c4f8e7a, 0x2a8b99fd, 3);
    OneStepApart(0x33295b93, 0x36d6962f, 0x91774bc, 0x10be4d51, 4);
    OneStepApart(0x20c9e9c9, 0x1387f792, 0x33295b93, 0x36d6962f, 5);
    OneStepApart(0x28a3e494, 0x3476d01, 0x20c9e9c9, 0x1387f792, 6);
    OneStepApart(0x390aa560, 0x2291cac0, 0x28a3e494, 0x3476d01, 7);
    OneStepApart(0x1c8552b, 0x1148e56, 0x390aa560, 0x2291cac0, 8);
    OneStepApart(0x3ea82e23, 0x2f44d966, 0x1c8552b, 0x1148e56, 9);
    OneStepApart(0x347d7789, 0x3aeece32, 0x3ea82e23, 0x2f44d966, 10);
    OneStepApart(0x28064066, 0x20c24cc, 0x347d7789, 0x3aeece32, 11);
    OneStepApart(0x3ad4dafa, 0x27a914fd, 0x28064066, 0x20c24cc, 12);
    OneStepApart(0x923ae18, 0x10d75939, 0x3ad4dafa, 0x27a914fd, 13);
    OneStepApart(0x1fbfd2ef, 0x3dfb84fe, 0x923ae18, 0x10d75939, 14);
    OneStepApart(0x12ccbdb4, 0x258dfb41, 0x1fbfd2ef, 0x3dfb84fe, 15);
    OneStepApart(0x38d9dfa9, 0x23a79e72, 0x12ccbdb4, 0x258dfb41, 16);
    OneStepApart(0x28636527, 0x2c66e4e, 0x38d9dfa9, 0x23a79e72, 17);
    OneStepApart(0x185c0278, 0x30ac81f9, 0x28636527, 0x2c66e4e, 18);
    OneStepApart(0x1f342f8c, 0x3cf85a38, 0x185c0278, 0x30ac81f9, 19);
    OneStepApart(0x2740d4a7, 0x1e110d4e, 0x1f342f8c, 0x3cf85a38, 20);
    OneStepApart(0x18251ff4, 0x304a3ae1, 0x2740d4a7, 0x1e110d4e, 21);
  }

  lemma ApartFrom42()
    ensures StaysApart(0x2a2673e5, 0x64c46ea, 42)
  {
    hide StaysApart;
    ApartFrom63();
    OneStepApart(0x388e92bb, 0x2309a07f, 0x18251ff4, 0x304a3ae1, 22);
    OneStepApart(0x2bba8df2, 0x7f19bcd, 0x388e92bb, 0x2309a07f, 23);
    OneStepApart(0x28686d2, 0x50d08ad, 0x2bba8df2, 0x7f19bcd, 24);
    OneStepApart(0x3cf668b, 0x51aec36, 0x28686d2, 0x50d08ad, 25);
    OneStepApart(0x3eb817be, 0x2f64aa75, 0x3cf668b, 0x51aec36, 26);
    OneStepApart(0x2597e7db, 0x1bbf6ebf, 0x3eb817be, 0x2f64aa75, 27);
    OneStepApart(0x2b524659, 0x6342dbb, 0x2597e7db, 0x1bbf6ebf, 28);
    OneStepApart(0x3c27ac05, 0x2a4f580a, 0x2b524659, 0x6342dbb, 29);
    OneStepApart(0xffde361, 0x1d7fe7e2, 0x3c27ac05, 0x2a4f580a, 30);
    OneStepApart(0x22f41eb3, 0x17e8386f, 0xffde361, 0x1d7fe7e2, 31);
    OneStepApart(0x204703e0, 0x128e02e0, 0x22f41eb3, 0x17e8386f, 32);
    OneStepApart(0x102381f, 0x947017, 0x204703e0, 0x128e02e0, 33);
    OneStepApart(0x6e1c70e, 0xdc32f3c, 0x102381f, 0x947017, 34);
    OneStepApart(0x308dbcb3, 0x330ff94f, 0x6e1c70e, 0xdc32f3c, 35);
    OneStepApart(0x20d4cef0, 0x13a93ce9, 0x308dbcb3, 0x330ff94f, 36);
    OneStepApart(0x15de339a, 0x2938e23d, 0x20d4cef0, 0x13a93ce9, 37);
    OneStepApart(0x85bf953, 0x10a3d68f, 0x15de339a, 0x2938e23d, 38);
    OneStepApart(0x21127cdf, 0x12b45d97, 0x85bf953, 0x10a3d68f, 39);
    OneStepApart(0x7e14528, 0xd522e50, 0x21127cdf, 0x12b45d97, 40);
    OneStepApart(0xb11505b, 0x14b2049f, 0x7e14528, 0xd522e50, 41);
    OneStepApart(0x2a2673e5, 0x64c46ea, 0xb11505b, 0x14b2049f, 42);
  }

  lemma ApartFrom21()
    ensures StaysApart(0x9339b0, 0x1267349, 63)
  {
    hide StaysApart;
    ApartFrom42();
    OneStepApart(0xf4ded9e, 0x1c1fff15, 0x2a2673e5, 0x64c46ea, 43);
    OneStepApart(0x2418480a, 0x1a24b414, 0xf4ded9e, 0x1c1fff15, 44);
    OneStepApart(0x1d0d5f62, 0x389e9fe4, 0x2418480a, 0x1a24b414, 45);
    OneStepApart(0x17ebadab, 0x2d53db56, 0x1d0d5f62, 0x389e9fe4, 46);
    OneStepApart(0x3e1931e7, 0x2e26e3ce, 0x17ebadab, 0x2d53db56, 47);
    OneStepApart(0x18efd0de, 0x31cb8595, 0x3e1931e7, 0x2e26e3ce, 48);
    OneStepApart(0x24a559e0, 0x1b4a17c0, 0x18efd0de, 0x31cb8595, 49);
    OneStepApart(0x1252acf, 0xda50be, 0x24a559e0, 0x1b4a17c0, 50);
    OneStepApart(0x12386a75, 0x2464f5e3, 0x1252acf, 0xda50be, 51);
    OneStepApart(0x1a5588bf, 0x34ab1157, 0x12386a75, 0x2464f5e3, 52);
    OneStepApart(0x63b7a8b, 0xc62d436, 0x1a5588bf, 0x34ab1157, 53);
    OneStepApart(0x3e97b75e, 0x2f2f6bb5, 0x63b7a8b, 0xc62d436, 54);
    OneStepApart(0x25969adc, 0x1bbd30b1, 0x3e97b75e, 0x2f2f6bb5, 55);
    OneStepApart(0x324d54e0, 0x368e8dc0, 0x25969adc, 0x1bbd30b1, 56);
    OneStepApart(0x1926aa7, 0x1b4746e, 0x324d54e0, 0x368e8dc0, 57);
    OneStepApart(0x19138a04, 0x30b71128, 0x1926aa7, 0x1b4746e, 58);
    OneStepApart(0x2c5fb3f9, 0xaabe2fb, 0x19138a04, 0x30b71128, 59);
    OneStepApart(0x3c1fc3a8, 0x2a2ba670, 0x2c5fb3f9, 0xaabe2fb, 60);
    OneStepApart(0xacea46f, 0x1589c8de, 0x3c1fc3a8, 0x2a2ba670, 61);
    OneStepApart(0x12673600, 0x24ce6920, 0xacea46f, 0x1589c8de, 62);
    OneStepApart(0x9339b0, 0x1267349, 0x12673600, 0x24ce6920, 63);
  }

  lemma ApartFrom0()
    ensures StaysApart(0x1, 0x2, 84)
  {
    hide StaysApart;
    ApartFrom21();
    OneStepApart(0x14dc0c20, 0x29ac9840, 0x9339b0, 0x1267349, 64);
    OneStepApart(0xa6e061, 0x14d64c2, 0x14dc0c20, 0x29ac9840, 65);
    OneStepApart(0x228ec6ab, 0x1709ac76, 0xa6e061, 0x14d64c2, 66);
    OneStepApart(0x3fb21abf, 0x2ff43077, 0x228ec6ab, 0x1709ac76, 67);
    OneStepApart(0x714461b, 0xcb82d3f, 0x3fb21abf, 0x2ff43077, 68);
    OneStepApart(0x2a465b57, 0x68c17a7, 0x714461b, 0xcb82d3f, 69);
    OneStepApart(0xc95be66, 0x192b79ec, 0x2a465b57, 0x68c17a7, 70);
    OneStepApart(0x3bf0450a, 0x27702e14, 0xc95be66, 0x192b79ec, 71);
    OneStepApart(0x1df21f0a, 0x39743b34, 0x3bf0450a, 0x27702e14, 72);
    OneStepApart(0x1cc20dda, 0x39841b9d, 0x1df21f0a, 0x39743b34, 73);
    OneStepApart(0x81318a1, 0x10263142, 0x1cc20dda, 0x39841b9d, 74);
    OneStepApart(0x22cb696d, 0x1782f6da, 0x81318a1, 0x10263142, 75);
    OneStepApart(0x424df38, 0x8491f79, 0x22cb696d, 0x1782f6da, 76);
    OneStepApart(0x1fd7e966, 0x3d3f76cc, 0x424df38, 0x8491f79, 77);
    OneStepApart(0x3b6a57b2, 0x26508e6d, 0x1fd7e966, 0x3d3f76cc, 78);
    OneStepApart(0x2000000, 0x4000000, 0x3b6a57b2, 0x26508e6d, 79);
    OneStepApart(0x100000, 0x200000, 0x2000000, 0x4000000, 80);
    OneStepApart(0x8000, 0x10000, 0x100000, 0x200000, 81);
    OneStepApart(0x400, 0x800, 0x8000, 0x10000, 82);
    OneStepApart(0x20, 0x40, 0x400, 0x800, 83);
    OneStepApart(0x1, 0x2, 0x20, 0x40, 84);
  }

  lemma {:induction false} DriftStaysApart(a: Check, b: Check, n: nat, m: nat)
    requires StaysApart(a, b, n) && 1 <= m <= n
    ensures !Small(Drift(m, a)) && !Small(Drift(m, b)) && !Small(Drift(m, Xor(a, b)))
    decreases n
  {
    hide Step, Xor, Small;
    StepOfBoth(a, b);
    assert AreApart(Step(a, 0), Step(b, 0));
    if m > 1 {
      DriftStaysApart(Step(a, 0), Step(b, 0), n - 1, m - 1);
    }
  }

  lemma StepOfBoth(a: Check, b: Check)
    ensures Step(Xor(a, b), 0) == Xor(Step(a, 0), Step(b, 0))
  {
    StepLinear(a, b, 0, 0);
  }

  /** The high bits of a printable character. */
  predicate High(c: Check) { c == 1 || c == 2 || c == 3 }

  /** A difference of high bits does not drift to a single value within a text of at most 90 characters. */
  lemma HighBitsDrift(d: Check, n: nat)
    requires High(d) && 1 <= n <= 84
    ensures !Small(Drift(n, d))
  {
    ApartFrom0();
    DriftStaysApart(1, 2, 84, n);
    hide Drift, Small;
    assert Xor(1, 2) == 3;
  }

  // ---- The human-readable part ----

  lemma ExpandedAt(hrp: string)
    ensures |Expanded(hrp)| == 2 * |hrp| + 1 && Expanded(hrp)[|hrp|] == 0
    ensures forall k :: 0 <= k < |hrp| ==>
              Expanded(hrp)[k] == HighBits(hrp[k]) && Expanded(hrp)[|hrp| + 1 + k] == LowBits(hrp[k])
  {
    hide HighBits, LowBits;
  }

  /** The values of the human-readable part, around the two that its i-th character gives. */
  lemma ExpandedAround(hrp: string, i: nat, x: char)
    requires i < |hrp|
    ensures var e, n := Expanded(hrp), |hrp|;
            |e| == 2 * n + 1
            && Expanded(hrp[i := x]) == e[..i] + [HighBits(x)] + e[i + 1..n + 1 + i] + [LowBits(x)] + e[n + 2 + i..]
  {
    hide HighBits, LowBits, Expanded;
    ExpandedAt(hrp);
    ExpandedAt(hrp[i := x]);
    var e, n, e' := Expanded(hrp), |hrp|, Expanded(hrp[i := x]);
    forall k | 0 <= k < |e| && k != i && k != n + 1 + i ensures e'[k] == e[k] {
      if k > n {
        assert e[n + 1 + (k - n - 1)] == LowBits(hrp[k - n - 1]);
        assert e'[n + 1 + (k - n - 1)] == LowBits(hrp[i := x][k - n - 1]);
      }
    }
    assert e' == e'[..i] + [e'[i]] + e'[i + 1..n + 1 + i] + [e'[n + 1 + i]] + e'[n + 2 + i..];
    assert e'[..i] == e[..i] && e'[i + 1..n + 1 + i] == e[i + 1..n + 1 + i] && e'[n + 2 + i..] == e[n + 2 + i..];
  }

  lemma Regrouped(a: seq<Check>, b: seq<Check>, c: seq<Check>, d: seq<Check>)
    ensures a + b + (c + d) == (a + b + c) + d
  {
  }

  lemma CheckAround(hrp: string, i: nat, x: char, data: seq<Symbol>)
    requires i < |hrp|
    ensures var e, n := Expanded(hrp), |hrp|;
            |e| == 2 * n + 1
            && CheckOf(hrp[i := x], data)
               == Residue(1, e[..i] + [HighBits(x)] + e[i + 1..n + 1 + i] + [LowBits(x)]
                             + (e[n + 2 + i..] + WidenAll(data)))
  {
    hide HighBits, LowBits, Expanded, Residue;
    ExpandedAround(hrp, i, x);
    var e, n := Expanded(hrp), |hrp|;
    Regrouped(e[..i] + [HighBits(x)] + e[i + 1..n + 1 + i], [LowBits(x)], e[n + 2 + i..], WidenAll(data));
  }

  /** Changing a character leaves the checksum as it was exactly if the change of the high bits drifts, over the length
      of the human-readable part, to the change of the low bits. */
  lemma SameCheckExactlyWhen(hrp: string, i: nat, x: char, data: seq<Symbol>)
    requires i < |hrp|
    ensures CheckOf(hrp[i := x], data) == CheckOf(hrp, data) <==>
              Drift(|hrp| + 1, Xor(HighBits(hrp[i]), HighBits(x))) == Xor(LowBits(hrp[i]), LowBits(x))
  {
    hide Expanded, Step, Xor, Residue, HighBits, LowBits, CheckOf;
    assert hrp[i := hrp[i]] == hrp;
    CheckAround(hrp, i, x, data);
    CheckAround(hrp, i, hrp[i], data);
    var e, n := Expanded(hrp), |hrp|;
    TwoChanges(1, e[..i], HighBits(hrp[i]), HighBits(x), e[i + 1..n + 1 + i], LowBits(hrp[i]), LowBits(x),
               e[n + 2 + i..] + WidenAll(data));
  }

  lemma BitsAre(x: char)
    requires 33 <= x as int <= 126
    ensures High(HighBits(x)) && Small(LowBits(x))
    ensures HighBits(x) as int == x as int / 32 && LowBits(x) as int == x as int % 32
  {
    var k: Symbol := x as int / 32;
    SymbolBits(k);
    SymbolBits(x as int % 32);
    assert k == 1 || k == 2 || k == 3;
  }

  lemma XorWithin(a: Check, b: Check)
    requires High(a) && High(b)
    ensures a == b || High(Xor(a, b))
  {
  }

  lemma BitsOfChar(x: char, y: char)
    requires 33 <= x as int <= 126 && 33 <= y as int <= 126 && x != y
    ensures Xor(HighBits(x), HighBits(y)) == 0 || High(Xor(HighBits(x), HighBits(y)))
    ensures Small(Xor(LowBits(x), LowBits(y)))
    ensures Xor(HighBits(x), HighBits(y)) == 0 ==> Xor(LowBits(x), LowBits(y)) != 0
  {
    hide HighBits, LowBits, High, Small, Xor;
    BitsAre(x);
    BitsAre(y);
    XorZero(HighBits(x), HighBits(y));
    XorZero(LowBits(x), LowBits(y));
    XorWithin(HighBits(x), HighBits(y));
    XorSmall(LowBits(x), LowBits(y));
  }

  lemma {:induction false} DriftOfNothing(n: nat)
    ensures Drift(n, 0) == 0
  {
    StepNonzero(0);
    hide Step;
    if n > 0 {
      DriftOfNothing(n - 1);
    }
  }

  /** Changing one printable character of the human-readable part never verifies under the same encoding, if that part
      is as short as it is in every text of at most 90 characters. */
  lemma HrpErrorIsDetected(hrp: string, i: nat, x: char, data: seq<Symbol>)
    requires i < |hrp| <= 83 && x != hrp[i] && 33 <= hrp[i] as int <= 126 && 33 <= x as int <= 126
    requires Verify(hrp, data).Some?
    ensures Verify(hrp[i := x], data) != Verify(hrp, data)
  {
    hide Drift, Xor, Step, Residue, HighBits, LowBits, Expanded, High, Small;
    BitsOfChar(hrp[i], x);
    var d := Xor(HighBits(hrp[i]), HighBits(x));
    if d == 0 {
      DriftOfNothing(|hrp| + 1);
    } else {
      HighBitsDrift(d, |hrp| + 1);
    }
    SameCheckExactlyWhen(hrp, i, x, data);
  }
}
