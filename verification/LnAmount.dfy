/** Amounts in payment requests (BOLT #11, section "Human-Readable Part"), as a number of pico-bitcoin. */
module LnAmount {
  import opened Common
  import opened Decimal

  /** The multipliers, from the smallest, and none. */
  datatype Multiplier = Pico | Nano | Micro | Milli | Whole

  function Scale(m: Multiplier): nat
  {
    match m
    case Pico => 1
    case Nano => 1000
    case Micro => 1000_000
    case Milli => 1000_000_000
    case Whole => 1000_000_000_000
  }

  function Suffix(m: Multiplier): string
  {
    match m
    case Pico => "p"
    case Nano => "n"
    case Micro => "u"
    case Milli => "m"
    case Whole => ""
  }

  function Above(m: Multiplier): Multiplier
  {
    match m
    case Pico => Nano
    case Nano => Micro
    case Micro => Milli
    case _ => Whole
  }

  function Text(n: nat, m: Multiplier): string { NatText(n) + Suffix(m) }

  /** Where the loop of shorten_amount ends that has come to the multiplier m. */
  function Shortened(n: nat, m: Multiplier): (r: (nat, Multiplier))
    ensures r.0 * Scale(r.1) == n * Scale(m)
    ensures r.1.Whole? || r.0 % 1000 != 0
    decreases if m.Pico? then 4 else if m.Nano? then 3 else if m.Micro? then 2 else if m.Milli? then 1 else 0
  {
    if m.Whole? || n % 1000 != 0 then (n, m) else Shortened(n / 1000, Above(m))
  }

  /** shorten_amount */
  function ShortenAmount(pico: nat): string
  {
    var (n, m) := Shortened(pico, Pico);
    Text(n, m)
  }

  /** The loop over the units. */
  method Shorten(pico: nat) returns (text: string)
    ensures text == ShortenAmount(pico)
  {
    var units := [Pico, Nano, Micro, Milli];
    var amount, unit := pico, Pico;
    var i := 0;
    var finished := false;
    while i < |units| && !finished
      invariant 0 <= i <= |units|
      invariant Shortened(amount, unit) == Shortened(pico, Pico)
      invariant !finished ==> unit == (if i == 4 then Whole else units[i])
      invariant finished ==> !unit.Whole? && amount % 1000 != 0
      decreases |units| - i, if finished then 0 else 1
    {
      unit := units[i];
      if amount % 1000 == 0 {
        amount := amount / 1000;
        i := i + 1;
        unit := Above(unit);
      } else {
        finished := true;
      }
    }
    text := Text(amount, unit);
  }

  // ---- Reading ----

  function MultiplierOf(c: char): Option<Multiplier>
  {
    match c
    case 'p' => Some(Pico)
    case 'n' => Some(Nano)
    case 'u' => Some(Micro)
    case 'm' => Some(Milli)
    case _ => None
  }

  predicate AllDigits(s: string) { s != "" && forall i :: 0 <= i < |s| ==> IsDigit(s[i]) }

  /** unshorten_amount, in pico-bitcoin; None is the LnDecodeException. */
  function UnshortenAmount(s: string): Option<nat>
  {
    if s == "" then None
    else match MultiplierOf(s[|s| - 1])
      case Some(m) => if AllDigits(s[..|s| - 1]) then Some(NatOf(s[..|s| - 1]) * Scale(m)) else None
      case None => if AllDigits(s) then Some(NatOf(s) * Scale(Whole)) else None
  }

  lemma UnshortenOfText(n: nat, m: Multiplier)
    ensures UnshortenAmount(Text(n, m)) == Some(n * Scale(m))
  {
    var digits := NatText(n);
    var s := Text(n, m);
    NatOfText(n);
    if m.Whole? {
      assert s == digits;
      assert IsDigit(s[|s| - 1]);
    } else {
      assert s[..|s| - 1] == digits;
    }
  }

  /** unshorten_amount inverts shorten_amount. */
  lemma UnshortenOfShorten(pico: nat)
    ensures UnshortenAmount(ShortenAmount(pico)) == Some(pico)
  {
    var (n, m) := Shortened(pico, Pico);
    UnshortenOfText(n, m);
  }

  // ---- The shortest form ----

  lemma {:induction false} TextIsShortest(s: string)
    requires AllDigits(s)
    ensures |NatText(NatOf(s))| <= |s|
    decreases |s|
  {
    var front := s[..|s| - 1];
    if |s| == 1 {
      assert front == [];
    } else {
      TextIsShortest(front);
      assert NatOf(s) / 10 == NatOf(front);
    }
  }

  lemma ThousandTimes(n: nat)
    requires n > 0
    ensures |NatText(n * 1000)| == |NatText(n)| + 3
  {
    assert n * 1000 / 10 == n * 100 && n * 100 / 10 == n * 10 && n * 10 / 10 == n;
    assert |NatText(n * 10)| == |NatText(n)| + 1;
    assert |NatText(n * 100)| == |NatText(n * 10)| + 1;
    assert |NatText(n * 1000)| == |NatText(n * 100)| + 1;
  }

  function Rank(m: Multiplier): nat
  {
    match m
    case Pico => 0
    case Nano => 1
    case Micro => 2
    case Milli => 3
    case Whole => 4
  }

  /** The same positive amount with a smaller multiplier takes at least as many characters. */
  lemma {:induction false} SmallerIsLonger(n: nat, m: Multiplier, n': nat, m': Multiplier)
    requires n > 0 && n * Scale(m) == n' * Scale(m') && Rank(m') <= Rank(m)
    ensures |Text(n', m')| >= |Text(n, m)|
    decreases Rank(m) - Rank(m')
  {
    if Rank(m') < Rank(m) {
      var up := Above(m');
      assert Scale(up) == 1000 * Scale(m');
      StepUp(n, m, n', m');
      SmallerIsLonger(n, m, n' / 1000, up);
      ThousandTimes(n' / 1000);
    }
  }

  lemma StepUp(n: nat, m: Multiplier, n': nat, m': Multiplier)
    requires n > 0 && n * Scale(m) == n' * Scale(m') && Rank(m') < Rank(m)
    ensures n' > 0 && n' % 1000 == 0 && n' / 1000 > 0 && (n' / 1000) * Scale(Above(m')) == n * Scale(m)
  {
    hide Scale;
    var q := Ratio(n, m, m');
    CancelScale(n', q * 1000, m');
    DivisionIs(n', 1000, q, 0);
  }

  /** A positive number of larger units in the next larger of the smaller ones. */
  lemma Ratio(n: nat, m: Multiplier, m': Multiplier) returns (q: nat)
    requires n > 0 && Rank(m') < Rank(m)
    ensures q > 0 && n * Scale(m) == q * Scale(Above(m')) && n * Scale(m) == (q * 1000) * Scale(m')
  {
    q := match Rank(m) - Rank(m') case 1 => n case 2 => n * 1000 case 3 => n * 1000_000 case _ => n * 1000_000_000;
  }

  lemma CancelScale(a: nat, b: nat, m: Multiplier)
    requires a * Scale(m) == b * Scale(m)
    ensures a == b
  {
  }

  /** No text that stands for the amount is shorter. */
  lemma ShortenIsShortest(pico: nat, text: string)
    requires UnshortenAmount(text) == Some(pico)
    ensures |ShortenAmount(pico)| <= |text|
  {
    var (n, m) := Shortened(pico, Pico);
    if pico == 0 {
      assert Shortened(0, Pico) == Shortened(0, Nano) == Shortened(0, Micro) == Shortened(0, Milli) ==
             Shortened(0, Whole);
    } else {
      var m' := if MultiplierOf(text[|text| - 1]).Some? then MultiplierOf(text[|text| - 1]).value else Whole;
      var digits := if m'.Whole? then text else text[..|text| - 1];
      var n' := NatOf(digits);
      TextIsShortest(digits);
      assert |Text(n', m')| <= |text|;
      if Rank(m') <= Rank(m) {
        SmallerIsLonger(n, m, n', m');
      } else {
        StepUp(n', m', n, m);
      }
    }
  }
}
