/** Fee arithmetic of the swap manager, over exact rationals. */
module Fees {
  import opened Common

  /** What server_update_pairs publishes: the percentage, as the exact rational num/den, the two mining
      fees and the amount range. */
  datatype Schedule = Schedule(num: int, den: int, lockupFee: int, normalFee: int, minAmount: int, maxAmount: int)
  {
    /** 0 <= percentage < 100 */
    ghost predicate Valid() { den > 0 && 0 <= num < 100 * den }

    predicate InRange(x: int) { minAmount <= x <= maxAmount }
  }

  /** dust_threshold(): 182 * 3 * 1000 msat at the default relay fee, in sat, rounded up. */
  const DUST_THRESHOLD: int := 546

  /** math.ceil(a / d) */
  function CeilDiv(a: int, d: int): int
    requires d > 0
  {
    -((-a) / d)
  }

  lemma CeilDivLe(a: int, d: int, k: int)
    requires d > 0
    ensures CeilDiv(a, d) <= k <==> a <= k * d
  {
    var q := (-a) / d;
    assert -a == q * d + (-a) % d;
    if -q <= k {
      ProductMonotone(-q, k, d);
    } else {
      ProductMonotone(k + 1, -q, d);
    }
  }

  /** math.ceil(percentage * x / 100): what the provider keeps on x satoshi. */
  function PercentageFee(f: Schedule, x: int): int
    requires f.Valid()
  {
    CeilDiv(f.num * x, 100 * f.den)
  }

  /** math.ceil(x * percentage / (100 + percentage)): the percentage fee inside x satoshi that already include it. */
  function IncludedFee(f: Schedule, x: int): int
    requires f.Valid()
  {
    CeilDiv(f.num * x, 100 * f.den + f.num)
  }

  // Client sends over Lightning, receives on chain.

  function RawRecvReverse(f: Schedule, sent: int): int
    requires f.Valid()
  {
    sent - (PercentageFee(f, sent) + f.lockupFee)
  }

  /** math.ceil((received + lockupFee) / ((100 - percentage) / 100)) */
  function RawSendReverse(f: Schedule, received: int): int
    requires f.Valid()
  {
    CeilDiv(100 * f.den * (received + f.lockupFee), 100 * f.den - f.num)
  }

  // Client sends on chain, receives over Lightning.

  function RawRecvForward(f: Schedule, sent: int): int
    requires f.Valid()
  {
    var x := sent - f.normalFee;
    x - IncludedFee(f, x)
  }

  function RawSendForward(f: Schedule, received: int): int
    requires f.Valid()
  {
    received + (PercentageFee(f, received) + f.normalFee)
  }

  function GetRecvAmount(f: Schedule, sent: Option<int>, isReverse: bool): Option<int>
    requires f.Valid()
  {
    if sent.None? then None
    else if isReverse then
      if !f.InRange(sent.value) then None
      else
        var x := RawRecvReverse(f, sent.value);
        if x < DUST_THRESHOLD then None else Some(x)
    else
      var x := RawRecvForward(f, sent.value);
      if !f.InRange(x) then None else Some(x)
  }

  function GetSendAmount(f: Schedule, received: Option<int>, isReverse: bool): Option<int>
    requires f.Valid()
  {
    if received.None? || received.value == 0 then None
    else if isReverse then
      var x := RawSendReverse(f, received.value);
      if !f.InRange(x) then None else Some(x)
    else
      if !f.InRange(received.value) then None
      else Some(RawSendForward(f, received.value))
  }

  // ---- The two directions are adjoint ----

  /** Sending s yields at least r exactly when s is at least the quoted price of r. */
  lemma ReverseAdjunction(f: Schedule, s: int, r: int)
    requires f.Valid()
    ensures RawRecvReverse(f, s) >= r <==> s >= RawSendReverse(f, r)
  {
    var n, h, need := f.num, 100 * f.den, r + f.lockupFee;
    CeilDivLe(n * s, h, s - need);
    CeilDivLe(h * need, h - n, s);
    assert (s - need) * h == s * h - h * need;
    assert s * (h - n) == s * h - n * s;
  }

  lemma ForwardAdjunction(f: Schedule, s: int, r: int)
    requires f.Valid()
    ensures RawRecvForward(f, s) >= r <==> s >= RawSendForward(f, r)
  {
    var n, h, x := f.num, 100 * f.den, s - f.normalFee;
    CeilDivLe(n * x, h + n, x - r);
    CeilDivLe(n * r, h, x - r);
    assert (x - r) * (h + n) == (x - r) * h + n * x - n * r;
  }

  /** Sending s pays for r, in whole numbers: the percentage of the larger amount, or of the smaller one, is within what
      is left behind the mining fee. */
  predicate Pays(f: Schedule, s: int, r: int, isReverse: bool)
  {
    if isReverse then f.num * s <= 100 * f.den * (s - f.lockupFee - r)
    else f.num * r <= 100 * f.den * (s - f.normalFee - r)
  }

  /** What is received, before the range checks, against the two prices in whole numbers. */
  lemma ReversePays(f: Schedule, s: int, r: int)
    requires f.Valid()
    ensures RawRecvReverse(f, s) >= r <==> f.num * s <= 100 * f.den * (s - f.lockupFee - r)
  {
    CeilDivLe(f.num * s, 100 * f.den, s - f.lockupFee - r);
  }

  lemma ForwardPays(f: Schedule, s: int, r: int)
    requires f.Valid()
    ensures RawRecvForward(f, s) >= r <==> f.num * r <= 100 * f.den * (s - f.normalFee - r)
  {
    ForwardAdjunction(f, s, r);
    CeilDivLe(f.num * r, 100 * f.den, s - f.normalFee - r);
  }

  /** _get_recv_amount answers x exactly if the amount on Lightning is in range, x is not dust on chain, and x is the
      most that the amount pays for. */
  lemma RecvExactlyWhen(f: Schedule, s: int, isReverse: bool, x: int)
    requires f.Valid()
    ensures GetRecvAmount(f, Some(s), isReverse) == Some(x) <==>
              && f.minAmount <= (if isReverse then s else x) <= f.maxAmount
              && (isReverse ==> x >= 546)
              && Pays(f, s, x, isReverse) && !Pays(f, s, x + 1, isReverse)
  {
    if isReverse {
      ReversePays(f, s, x);
      ReversePays(f, s, x + 1);
    } else {
      ForwardPays(f, s, x);
      ForwardPays(f, s, x + 1);
    }
  }

  /** It answers at all exactly if, on chain, the amount in range pays for more than dust, or on Lightning what it pays
      for is in range. */
  lemma RecvQuotedExactlyWhen(f: Schedule, s: int, isReverse: bool)
    requires f.Valid()
    ensures GetRecvAmount(f, Some(s), isReverse).Some? <==>
              if isReverse then f.minAmount <= s <= f.maxAmount && Pays(f, s, 546, true)
              else Pays(f, s, f.minAmount, false) && !Pays(f, s, f.maxAmount + 1, false)
    ensures GetRecvAmount(f, None, isReverse).None?
  {
    ReversePays(f, s, 546);
    ForwardPays(f, s, f.minAmount);
    ForwardPays(f, s, f.maxAmount + 1);
  }

  /** _get_send_amount answers x exactly if the amount on Lightning is in range and x is the least that pays for r. */
  lemma SendExactlyWhen(f: Schedule, r: int, isReverse: bool, x: int)
    requires f.Valid()
    ensures GetSendAmount(f, Some(r), isReverse) == Some(x) <==>
              && r != 0 && f.minAmount <= (if isReverse then x else r) <= f.maxAmount
              && Pays(f, x, r, isReverse) && !Pays(f, x - 1, r, isReverse)
  {
    if isReverse {
      ReverseAdjunction(f, x, r);
      ReverseAdjunction(f, x - 1, r);
      ReversePays(f, x, r);
      ReversePays(f, x - 1, r);
    } else {
      ForwardAdjunction(f, x, r);
      ForwardAdjunction(f, x - 1, r);
      ForwardPays(f, x, r);
      ForwardPays(f, x - 1, r);
    }
  }

  lemma SendQuotedExactlyWhen(f: Schedule, r: int, isReverse: bool)
    requires f.Valid()
    ensures GetSendAmount(f, Some(r), isReverse).Some? <==>
              r != 0
              && if isReverse then Pays(f, f.maxAmount, r, true) && !Pays(f, f.minAmount - 1, r, true)
                 else f.minAmount <= r <= f.maxAmount
    ensures GetSendAmount(f, None, isReverse).None?
  {
    ReverseAdjunction(f, f.maxAmount, r);
    ReverseAdjunction(f, f.minAmount - 1, r);
    ReversePays(f, f.maxAmount, r);
    ReversePays(f, f.minAmount - 1, r);
  }

  lemma RecvReverseStep(f: Schedule, s: int)
    requires f.Valid()
    ensures RawRecvReverse(f, s) <= RawRecvReverse(f, s - 1) + 1
  {
    var n, h, c := f.num, 100 * f.den, PercentageFee(f, s);
    CeilDivLe(n * s, h, c);
    CeilDivLe(n * (s - 1), h, c);
    assert n * (s - 1) == n * s - n;
  }

  lemma RecvForwardStep(f: Schedule, s: int)
    requires f.Valid()
    ensures RawRecvForward(f, s) <= RawRecvForward(f, s - 1) + 1
  {
    var n, h, x := f.num, 100 * f.den, s - f.normalFee;
    var c := IncludedFee(f, x);
    CeilDivLe(n * x, h + n, c);
    CeilDivLe(n * (x - 1), h + n, c);
    assert n * (x - 1) == n * x - n;
  }

  /** The quoted price of r buys exactly r, and no smaller amount buys r. */
  lemma ReverseSendIsLeastAndExact(f: Schedule, r: int)
    requires f.Valid()
    ensures RawRecvReverse(f, RawSendReverse(f, r)) == r
    ensures forall s :: RawRecvReverse(f, s) >= r ==> s >= RawSendReverse(f, r)
  {
    var s := RawSendReverse(f, r);
    ReverseAdjunction(f, s, r);
    ReverseAdjunction(f, s - 1, r);
    RecvReverseStep(f, s);
    forall t | RawRecvReverse(f, t) >= r ensures t >= s {
      ReverseAdjunction(f, t, r);
    }
  }

  lemma ForwardSendIsLeastAndExact(f: Schedule, r: int)
    requires f.Valid()
    ensures RawRecvForward(f, RawSendForward(f, r)) == r
    ensures forall s :: RawRecvForward(f, s) >= r ==> s >= RawSendForward(f, r)
  {
    var s := RawSendForward(f, r);
    ForwardAdjunction(f, s, r);
    ForwardAdjunction(f, s - 1, r);
    RecvForwardStep(f, s);
    forall t | RawRecvForward(f, t) >= r ensures t >= s {
      ForwardAdjunction(f, t, r);
    }
  }

  /** With the range and dust checks: whenever a price is quoted, paying it returns the requested amount,
      except that a reverse amount below the dust limit is quoted but refused. */
  lemma QuoteThenPay(f: Schedule, r: Option<int>, isReverse: bool)
    requires f.Valid()
    requires GetSendAmount(f, r, isReverse).Some?
    ensures r.Some?
    ensures GetRecvAmount(f, GetSendAmount(f, r, isReverse), isReverse) ==
            if isReverse && r.value < DUST_THRESHOLD then None else r
  {
    if isReverse {
      ReverseSendIsLeastAndExact(f, r.value);
    } else {
      ForwardSendIsLeastAndExact(f, r.value);
    }
  }
}
