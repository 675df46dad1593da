/** A claimed swap that holds a preimage without being settled is never settled again. */
module ProviderStuck {
  import opened Common
  import opened Invoices
  import opened LockScript
  import opened Provider
  import opened ProviderRuns
  import opened ProviderInvariant
  import opened ProviderSettles
  import opened ProviderClaims
  import opened ProviderSafety
  import opened ProviderSettlement

  // ---- The trap ----

  /** An image that knows a preimage for swap k, or has forgotten the swap, with an unsettled invoice. */
  predicate StuckIn(im: Image, k: Hash)
  {
    !Unrevealed(im.swaps, k) && (k in im.invoices ==> !im.invoices[k].status.SETTLED?)
  }

  predicate Stuck(s: State, k: Hash)
  {
    StuckIn(s.mem, k) && StuckIn(s.tracked, k) && StuckIn(s.disk, k)
  }

  // ---- Operations ----

  lemma WriteStuck(s: State, k: Hash, consolidate: bool)
    requires Stuck(s, k)
    ensures Stuck(Write(s, consolidate), k)
  {
  }

  lemma SetInvoiceStuck(s: State, k: Hash, h: Hash, inv: InvoiceRecord)
    requires Stuck(s, k) && (h == k ==> !inv.status.SETTLED?)
    ensures Stuck(Touch(s, h, inv), k) && Stuck(SetInvoice(s, h, inv), k)
  {
  }

  lemma SetSwapStuck(s: State, k: Hash, h: Hash, swap: Swap)
    requires Stuck(s, k) && (h == k ==> swap.preimage.Some?)
    ensures Stuck(SetSwap(s, h, swap), k)
  {
  }

  lemma DropStuck(s: State, k: Hash, h: Hash)
    requires Stuck(s, k)
    ensures Stuck(DropHoldInvoice(s, h), k) && Stuck(PopPreimage(s, h), k) && Stuck(PopSwap(s, h), k)
  {
  }

  lemma TablesStuck(s: State, t: State, k: Hash)
    requires Stuck(s, k) && t.mem == s.mem && t.tracked == s.tracked && t.disk == s.disk
    ensures Stuck(t, k)
  {
  }

  lemma HtlcStuck(s: State, k: Hash, h: Hash, inc: Incoming, decodeOk: bool, now: int, consolidate: bool)
    requires Stuck(s, k)
    ensures Stuck(HtlcAccepted(s, h, inc, decodeOk, now, consolidate), k)
  {
    if h in s.mem.invoices {
      var inv := HandleHtlc(s.mem.invoices[h], inc, decodeOk, now).0;
      HandledNotSettled(s.mem.invoices[h], inc, decodeOk, now);
      hide Stuck, HandleHtlc, Write, SetInvoice;
      assert h == k ==> !inv.status.SETTLED? by {
        StuckInvoice(s, k);
      }
      SetInvoiceStuck(s, k, h, inv);
      var t := Touch(s, h, inv);
      SetInvoiceStuck(t, k, h, inv);
      WriteStuck(SetInvoice(t, h, inv), k, consolidate);
    }
  }

  lemma StuckInvoice(s: State, k: Hash)
    requires Stuck(s, k)
    ensures k in s.mem.invoices ==> !s.mem.invoices[k].status.SETTLED?
  {
  }

  lemma HandledNotSettled(inv: InvoiceRecord, inc: Incoming, decodeOk: bool, now: int)
    ensures HandleHtlc(inv, inc, decodeOk, now).0.status.SETTLED? ==> inv.status.SETTLED?
  {
  }

  lemma ExpiryStuck(s: State, k: Hash, h: Hash, now: int, consolidate: bool)
    requires Stuck(s, k)
    ensures Stuck(CheckInvoiceExpiry(s, h, now, consolidate).state, k)
  {
    StuckInvoice(s, k);
    if h in s.mem.invoices {
      var inv := CancelAll(s.mem.invoices[h]).0;
      assert inv.status.SETTLED? ==> s.mem.invoices[h].status.SETTLED?;
      hide Stuck, CancelAll, Write, Touch, DropHoldInvoice;
      SetInvoiceStuck(s, k, h, inv);
      var t := Touch(s, h, inv);
      DropStuck(t, k, h);
      WriteStuck(DropHoldInvoice(t, h), k, consolidate);
    }
  }

  /** The turn of any swap only settles a prepay invoice. */
  lemma SettlePrepayStuck(env: Env, w: World, s: State, k: Hash, h: Hash, consolidate: bool)
    requires Stuck(s, k) && k in w.terms && WorldOk(env, w) && ImageOk(env, w, s.mem) && h in s.mem.invoices
    ensures Stuck(SettlePrepay(s, h, env.sha256, consolidate).state, k)
  {
    hide ImageOk, WorldOk, Stuck, Settle, Write, SetInvoice;
    if s.mem.invoices[h].associated.Some? {
      var q := s.mem.invoices[h].associated.value;
      AssociatedIsNotMain(env, w, s.mem, h, k);
      if q in s.mem.invoices && q in s.mem.preimages {
        var inv := Settle(s.mem.invoices[q], s.mem.preimages[q], env.sha256).0;
        SetInvoiceStuck(s, k, q, inv);
        WriteStuck(SetInvoice(s, q, inv), k, consolidate);
        UpdateOfTouch(s, q, inv, consolidate);
      }
    }
  }

  lemma AssociatedIsNotMain(env: Env, w: World, im: Image, h: Hash, k: Hash)
    requires WorldOk(env, w) && ImageOk(env, w, im) && k in w.terms && h in im.invoices
             && im.invoices[h].associated.Some?
    ensures im.invoices[h].associated.value != k
  {
    AssociatedIsPrepay(env, w, im, h);
    assert PrepaymentOk(w, im.invoices[h].associated.value);
  }

  lemma FailSwapStuck(s: State, k: Hash, h: Hash, swap: Swap, consolidate: bool)
    requires Stuck(s, k)
    ensures Stuck(FailSwap(s, h, swap, consolidate).0, k)
  {
    hide Stuck, Write;
    var t := s.(watching := s.watching - {h}, toPay := s.toPay - {h});
    TablesStuck(s, t, k);
    DropStuck(t, k, h);
    WriteStuck(t, k, consolidate);
    WriteStuck(PopSwap(t, h), k, consolidate);
  }

  lemma CallbackStuck(s: State, k: Hash, h: Hash, f: FundingResult, consolidate: bool)
    requires Stuck(s, k)
    ensures Stuck(HoldInvoiceCallback(s, h, f, consolidate).state, k)
  {
    if h in s.mem.swaps {
      var swap := s.mem.swaps[h];
      assert h == k ==> swap.preimage.Some?;
      hide Stuck, FailSwap, SetSwap;
      FailSwapStuck(s, k, h, swap, consolidate);
      if f.SendFails? || f.Sent? {
        var swap' := swap.(fundingTxid := Some(f.txid));
        SetSwapStuck(s, k, h, swap');
        FailSwapStuck(SetSwap(s, h, swap'), k, h, swap', consolidate);
      }
    }
  }

  lemma TurnStuck(
    env: Env, w: World, s: State, k: Hash, h: Hash, f: FundingResult, consolidate: bool, consolidateOnFail: bool)
    requires Stuck(s, k) && k in w.terms && WorldOk(env, w) && ImageOk(env, w, s.mem)
    ensures Stuck(CallbackTurn(s, h, f, env.sha256, consolidate, consolidateOnFail).state, k)
  {
    hide Stuck, ImageOk, WorldOk, SettlePrepay, HoldInvoiceCallback;
    var t := CallbackTurn(s, h, f, env.sha256, consolidate, consolidateOnFail).state;
    if h !in s.mem.invoices || !s.mem.invoices[h].status.FUNDED? {
      TablesStuck(s, t, k);
    } else {
      var p := SettlePrepay(s, h, env.sha256, consolidate);
      SettlePrepayStuck(env, w, s, k, h, consolidate);
      CallbackStuck(p.state, k, h, f, consolidateOnFail);
      if p.proceed {
        TablesStuck(HoldInvoiceCallback(p.state, h, f, consolidateOnFail).state, t, k);
      }
    }
  }

  lemma FinishStuck(s: State, k: Hash, h: Hash, sha256: Bytes -> Bytes, consolidate: bool)
    requires Stuck(s, k) && h in s.mem.swaps && h != k
    ensures Stuck(FinishNormalSwap(s, h, sha256, consolidate).0, k)
  {
    hide Stuck, Settle, Write, Touch, DropHoldInvoice, PopPreimage, PopSwap;
    var swap := s.mem.swaps[h];
    if swap.preimage.Some? && h in s.mem.invoices {
      var inv := Settle(s.mem.invoices[h], swap.preimage.value, sha256).0;
      SetInvoiceStuck(s, k, h, inv);
      var s1 := Touch(s, h, inv);
      var s2 := DropHoldInvoice(s1, h);
      DropStuck(s1, k, h);
      var s3 := if swap.prepayHash.Some? then DropHoldInvoice(s2, swap.prepayHash.value) else s2;
      if swap.prepayHash.Some? {
        DropStuck(s2, k, swap.prepayHash.value);
      }
      var s4 := PopPreimage(s3, h);
      DropStuck(s3, k, h);
      var s5 := s4.(watching := s4.watching - {h});
      TablesStuck(s4, s5, k);
      DropStuck(s5, k, h);
      WriteStuck(PopSwap(s5, h), k, consolidate);
    }
  }

  lemma SignStuck(s: State, k: Hash, h: Hash, o: Observation, txo: Txo, locktime: int, revealed: Bytes)
    requires Stuck(s, k) && h in s.mem.swaps
    ensures Stuck(SignClaim(s, h, o, txo, locktime, revealed).state, k)
  {
    assert h == k ==> s.mem.swaps[h].preimage.Some?;
    hide Stuck;
    SetSwapStuck(s, k, h, s.mem.swaps[h].(spendingTxid := Some(o.claimTxid)));
  }

  lemma ClaimNormalStuck(
    s: State, k: Hash, h: Hash, o: Observation, txo: Txo, sha256: Bytes -> Bytes, consolidate: bool)
    requires Stuck(s, k) && h in s.mem.swaps
    ensures Stuck(ClaimNormal(s, h, o, txo, sha256, consolidate).state, k)
  {
    var swap := s.mem.swaps[h];
    assert h == k ==> swap.preimage.Some?;
    hide Stuck, FailSwap, FinishNormalSwap, FindPreimage, SignClaim;
    SignStuck(s, k, h, o, txo, swap.lock.locktime, []);
    if swap.preimage.None? && txo.spent.Some? {
      match FindPreimage(txo.spent.value.inputs, h, sha256) {
        case IndexError =>
        case Found(p) =>
          SetSwapStuck(s, k, h, swap.(preimage := Some(p)));
          FinishStuck(SetSwap(s, h, swap.(preimage := Some(p))), k, h, sha256, consolidate);
        case Missing =>
          var swap' := swap.(isRedeemed := true);
          SetSwapStuck(s, k, h, swap');
          FailSwapStuck(SetSwap(s, h, swap'), k, h, swap', consolidate);
      }
    }
  }

  lemma ClaimReverseStuck(s: State, k: Hash, h: Hash, o: Observation, txo: Txo, sha256: Bytes -> Bytes)
    requires Stuck(s, k) && h in s.mem.swaps
    ensures Stuck(ClaimReverse(s, h, o, txo, sha256).state, k)
  {
    hide Stuck, SignClaim;
    var swap := s.mem.swaps[h];
    var t := ClaimReverse(s, h, o, txo, sha256).state;
    if swap.preimage.Some? {
      SignStuck(s, k, h, o, txo, 0, swap.preimage.value);
    } else if h in s.mem.preimages {
      var p := s.mem.preimages[h];
      SetSwapStuck(s, k, h, swap.(preimage := Some(p)));
      SignStuck(SetSwap(s, h, swap.(preimage := Some(p))), k, h, o, txo, 0, p);
    } else {
      TablesStuck(s, t, k);
    }
  }

  lemma ClaimStuck(s: State, k: Hash, h: Hash, o: Observation, sha256: Bytes -> Bytes, consolidate: bool)
    requires Stuck(s, k) && h in s.mem.swaps
    ensures Stuck(ClaimSwap(s, h, o, sha256, consolidate).state, k)
  {
    var swap := s.mem.swaps[h];
    assert h == k ==> swap.preimage.Some?;
    hide Stuck, FirstUsable, FailSwap, ClaimNormal, ClaimReverse, Write;
    match FirstUsable(swap, o.txos) {
      case None => FailSwapStuck(s, k, h, swap, consolidate);
      case Some(txo) =>
        var seen := Observed(swap, txo);
        var s1 := SetSwap(s, h, seen);
        SetSwapStuck(s, k, h, seen);
        var s2 := SetSwap(s1, h, seen.(isRedeemed := true));
        SetSwapStuck(s1, k, h, seen.(isRedeemed := true));
        var s3 := s2.(watching := s2.watching - {h}, toPay := s2.toPay - {h});
        TablesStuck(s2, s3, k);
        DropStuck(s3, k, h);
        WriteStuck(PopSwap(s3, h), k, consolidate);
        ClaimReverseStuck(s1, k, h, o, txo, sha256);
        ClaimNormalStuck(s1, k, h, o, txo, sha256, consolidate);
    }
  }

  lemma {:induction false} CreateStuck(s: State, k: Hash, r: Request, n: nat, consolidate: bool)
    requires Stuck(s, k) && n <= CreateLimit(r) && r.paymentHash != k && r.prepayHash != k
    ensures Stuck(CreateStages(s, r, n, consolidate), k)
  {
    hide Stuck, Write, SetInvoice, SetSwap;
    if n > 0 {
      CreateStuck(s, k, r, n - 1, consolidate);
      var t := CreateStages(s, r, n - 1, consolidate);
      if n == 2 {
        SetPreimageStuck(t, k, r.prepayHash, r.prepayPreimage);
        WriteStuck(SetPreimage(t, r.prepayHash, r.prepayPreimage), k, consolidate);
      } else if n == 5 {
        SetSwapStuck(t, k, r.paymentHash, NewSwap(r));
        TablesStuck(SetSwap(t, r.paymentHash, NewSwap(r)), CreateStages(s, r, n, consolidate), k);
      } else {
        var h := if n == 3 then r.prepayHash else r.paymentHash;
        var inv := if n == 1 then NewInvoice(h, r.main, MainSat(r), r.now)
                   else if n == 3 then NewInvoice(h, r.prepay, r.prepaySat, r.now)
                   else NewInvoice(h, r.main, MainSat(r), r.now).(associated := Some(r.prepayHash));
        SetInvoiceStuck(t, k, h, inv);
        WriteStuck(SetInvoice(t, h, inv), k, consolidate);
      }
    }
  }

  lemma SetPreimageStuck(s: State, k: Hash, h: Hash, p: Bytes)
    requires Stuck(s, k)
    ensures Stuck(SetPreimage(s, h, p), k)
  {
  }

  lemma RestartStuck(s: State, k: Hash)
    requires Stuck(s, k)
    ensures Stuck(Restart(s), k)
  {
  }

  // ---- Steps and runs ----

  lemma CreateStepStuck(env: Env, w: World, s: State, st: Step, k: Hash)
    requires Enabled(env, w, s, st) && k in w.used && Stuck(s, k)
    requires st.Create? || st.CreateInterrupted? || st.CreateRev?
    ensures Stuck(Next(env, w, s, st).1, k)
  {
    hide Stuck, Restart, CreateStages, SetSwap;
    match st {
      case Create(r, _, _, c) => CreateStuck(s, k, r, CreateLimit(r), c);
      case CreateInterrupted(r, _, _, n, c) =>
        CreateStuck(s, k, r, n, c);
        RestartStuck(CreateStages(s, r, n, c), k);
      case CreateRev(h, lock, a, b, p) =>
        var swap := Swap(true, lock, a, b, Some(p), None, None, None, false);
        SetSwapStuck(s, k, h, swap);
        TablesStuck(SetSwap(s, h, swap), Next(env, w, s, st).1, k);
    }
  }

  lemma TurnStepStuck(env: Env, w: World, s: State, st: Step, k: Hash)
    requires WorldOk(env, w) && ImageOk(env, w, s.mem) && Enabled(env, w, s, st) && k in w.terms && Stuck(s, k)
    requires st.TurnStep? || st.TurnInterrupted?
    ensures Stuck(Next(env, w, s, st).1, k)
  {
    hide WorldOk, ImageOk, Stuck, Restart, CallbackTurn, SettlePrepay;
    match st {
      case TurnStep(h, f, c1, c2) =>
        TurnStuck(env, w, s, k, h, f, c1, c2);
        TablesStuck(CallbackTurn(s, h, f, env.sha256, c1, c2).state, Next(env, w, s, st).1, k);
      case TurnInterrupted(h, isSaved, c) =>
        SettlePrepayStuck(env, w, s, k, h, c);
        RestartStuck(if isSaved then SettlePrepay(s, h, env.sha256, c).state else s, k);
    }
  }

  lemma OtherStepStuck(env: Env, w: World, s: State, st: Step, k: Hash)
    requires Enabled(env, w, s, st) && Stuck(s, k)
    requires !st.Create? && !st.CreateInterrupted? && !st.CreateRev? && !st.TurnStep? && !st.TurnInterrupted?
    ensures Stuck(Next(env, w, s, st).1, k)
  {
    hide Stuck, Restart, ClaimSwap, CheckInvoiceExpiry, HtlcAccepted, GoodRequest, LockBytes, Spends;
    var s' := Next(env, w, s, st).1;
    match st {
      case HtlcStep(h, inc, _, ok, now, c) => HtlcStuck(s, k, h, inc, ok, now, c);
      case ExpiryStep(h, now, c) => ExpiryStuck(s, k, h, now, c);
      case ClaimStep(h, o, c) => ClaimStuck(s, k, h, o, env.sha256, c);
      case ClaimInterrupted(_, _, _) => RestartStuck(s, k);
      case Crash => RestartStuck(s, k);
      case _ => TablesStuck(s, s', k);
    }
  }

  lemma StepKeepsStuck(env: Env, w: World, s: State, st: Step, k: Hash)
    requires Inv(env, w, s) && Enabled(env, w, s, st) && k in w.terms && Stuck(s, k)
    ensures Stuck(Next(env, w, s, st).1, k) && k in Next(env, w, s, st).0.terms
  {
    assert TermsOk(env, w, k);
    hide WorldOk, ImageOk, Linked, TablesOk, Stuck, Next, Enabled;
    StepKeepsHistory(env, w, s, st);
    if st.Create? || st.CreateInterrupted? || st.CreateRev? {
      CreateStepStuck(env, w, s, st, k);
    } else if st.TurnStep? || st.TurnInterrupted? {
      TurnStepStuck(env, w, s, st, k);
    } else {
      OtherStepStuck(env, w, s, st, k);
    }
  }

  lemma {:induction false} RunKeepsStuck(env: Env, w: World, s: State, steps: seq<Step>, k: Hash)
    requires Inv(env, w, s) && Possible(env, w, s, steps) && k in w.terms && Stuck(s, k)
    ensures Stuck(RunOf(env, w, s, steps).1, k)
    ensures Inv(env, RunOf(env, w, s, steps).0, RunOf(env, w, s, steps).1)
    decreases |steps|
  {
    hide Inv, Next, Enabled, Stuck;
    if steps != [] {
      StepKeepsInv(env, w, s, steps[0]);
      StepKeepsStuck(env, w, s, steps[0], k);
      var (w', s') := Next(env, w, s, steps[0]);
      RunKeepsStuck(env, w', s', steps[1..], k);
    }
  }

  /** Once every image knows a preimage for a swap whose hold invoice is not settled, or has forgotten the swap, no
      continuation of the run, with crashes anywhere, settles the invoice: it is SETTLED in no image and no run of
      _claim_swap tries. */
  lemma NeverSettledAfterwards(
    env: Env, w: World, s: State, steps: seq<Step>, k: Hash, o: Observation, consolidate: bool)
    requires Inv(env, w, s) && k in w.terms && Stuck(s, k) && Possible(env, w, s, steps)
    ensures var s' := RunOf(env, w, s, steps).1;
            && (forall im :: im in {s'.mem, s'.tracked, s'.disk} && k in im.invoices ==>
               !im.invoices[k].status.SETTLED?)
            && (k in s'.mem.swaps ==> ClaimSwap(s', k, o, env.sha256, consolidate).settled.None?)
  {
    hide Inv, ClaimSwap, Possible, RunOf;
    RunKeepsStuck(env, w, s, steps, k);
    var s' := RunOf(env, w, s, steps).1;
    if k in s'.mem.swaps {
      TriedExactlyWhen(s', k, o, env.sha256, consolidate);
    }
  }

  /** What leads there: in every reachable state, when _claim_swap finds the preimage of a funded swap while an accepted
      HTLC has no request, it raises, and whatever is written next makes the trap complete. */
  lemma MissingRequestTraps(
    env: Env, w: World, s: State, k: Hash, o: Observation, consolidate: bool, consolidateNext: bool)
    requires Reachable(env, w, s) && Enabled(env, w, s, ClaimStep(k, o, consolidate)) && k in w.fundings
    requires FindsPreimage(s, k, o, env.sha256) && !Attached(s, k)
    ensures var r := ClaimSwap(s, k, o, env.sha256, consolidate);
            && r.outcome.Raised? && r.broadcast.None?
            && StuckIn(r.state.mem, k) && StuckIn(r.state.tracked, k)
            && Stuck(Write(r.state, consolidateNext), k)
  {
    hide Inv, ClaimSwap, FindPreimage, Possible, RunOf, WorldOk, ImageOk, AllAttached;
    ReachableInv(env, w, s);
    WorldOfInv(env, w, s);
    FundedInvoice(env, w, s, k);
    var txo := o.txos[0];
    var p := FindPreimage(txo.spent.value.inputs, k, env.sha256).preimage;
    DetachedClaimOnlyKeepsPreimage(s, k, o, txo, p, env.sha256, consolidate);
    RefundNeedsNoPreimage(s, k, o, env.sha256, consolidate);
  }

  lemma RefundNeedsNoPreimage(s: State, k: Hash, o: Observation, sha256: Bytes -> Bytes, consolidate: bool)
    requires k in s.mem.swaps && FindsPreimage(s, k, o, sha256)
    ensures ClaimSwap(s, k, o, sha256, consolidate).broadcast.None?
  {
    hide FindPreimage, Settle, Write, DropHoldInvoice;
  }
}
