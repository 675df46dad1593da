/** Settling, funding, claiming and failing keep the invariant. */
module ProviderSettles {
  import opened Common
  import opened Invoices
  import opened Provider
  import opened ProviderRuns
  import opened ProviderInvariant

  // ---- Settling an invoice ----

  lemma SettleDerives(inv: InvoiceRecord, preimage: Bytes, sha256: Bytes -> Bytes)
    ensures var inv' := Settle(inv, preimage, sha256).0;
            && Derived(inv.htlcs, inv'.htlcs) && MovedOn(inv.htlcs, inv'.htlcs)
            && inv'.paymentHash == inv.paymentHash && inv'.amountMsat == inv.amountMsat
            && inv'.associated == inv.associated && inv'.bolt11 == inv.bolt11
            && (!Settle(inv, preimage, sha256).1 ==> inv'.status == inv.status)
            && (Settle(inv, preimage, sha256).1 ==> inv'.status.SETTLED?)
  {
  }

  /** Settling the prepay invoice of a swap whose funding transaction was not sent yet. */
  lemma SettledPrepayFits(env: Env, w: World, im: Image, q: Hash, preimage: Bytes)
    requires ImageOk(env, w, im) && WorldOk(env, w) && q in im.invoices
    requires im.invoices[q].status.FUNDED? && q in w.prepayments
    ensures Fits(env, w, im, q, Settle(im.invoices[q], preimage, env.sha256).0)
  {
    var inv := im.invoices[q];
    var inv' := Settle(inv, preimage, env.sha256).0;
    assert PrepaymentOk(w, q);
    SettleKeepsWellFormed(inv, preimage, env.sha256);
    SettleDerives(inv, preimage, env.sha256);
    DerivedInvoiceOk(env, w, q, inv, inv');
    forall f | f in w.fundings && f in w.terms
      ensures q != w.terms[f].request.prepayHash && q != f
    {
      assert FundedOk(env, w, im, f);
    }
  }

  /** Settling the main invoice of a swap whose lockup output was claimed. */
  lemma SettledMainFits(env: Env, w: World, im: Image, k: Hash, preimage: Bytes)
    requires ImageOk(env, w, im) && WorldOk(env, w) && k in im.invoices
    requires k in w.terms && Claimed(env, w, k)
    requires k in im.swaps && im.swaps[k].fundingTxid.Some? && im.swaps[k].preimage.Some?
    ensures Fits(env, w, im, k, Settle(im.invoices[k], preimage, env.sha256).0)
  {
    var inv := im.invoices[k];
    var inv' := Settle(inv, preimage, env.sha256).0;
    SettleKeepsWellFormed(inv, preimage, env.sha256);
    SettleDerives(inv, preimage, env.sha256);
    DerivedInvoiceOk(env, w, k, inv, inv');
    assert CrossOk(inv, im.swaps[k]);
    forall f | f in w.fundings && f in w.terms
      ensures k != w.terms[f].request.prepayHash
    {
      assert TermsOk(env, w, f);
      assert PrepaymentOk(w, w.terms[f].request.prepayHash);
    }
  }

  // ---- callback_handler ----

  predicate PrepaySettled(s: State, q: Hash)
  {
    && q in s.mem.invoices && s.mem.invoices[q].status.SETTLED?
    && q in s.tracked.invoices && s.tracked.invoices[q].status.SETTLED?
  }

  /** The associated invoice of a live invoice is its prepay invoice. */
  lemma AssociatedIsPrepay(env: Env, w: World, im: Image, k: Hash)
    requires ImageOk(env, w, im) && WorldOk(env, w) && k in im.invoices && im.invoices[k].associated.Some?
    ensures k in w.terms && im.invoices[k].associated.value == w.terms[k].request.prepayHash
    ensures im.invoices[k].associated.value in w.prepayments && im.invoices[k].associated.value != k
  {
    assert InvoiceOk(env, w, k, im.invoices[k]);
    if k in w.terms {
      assert TermsOk(env, w, k);
      assert PrepaymentOk(w, w.terms[k].request.prepayHash);
    }
  }

  lemma SettlePrepayGood(env: Env, w: World, s: State, k: Hash, consolidate: bool)
    requires WorldOk(env, w) && Good(env, w, s) && k in s.mem.invoices && s.mem.invoices[k].status.FUNDED?
    ensures var p := SettlePrepay(s, k, env.sha256, consolidate);
            Good(env, w, p.state)
  {
    hide ImageOk, WorldOk, Linked, Fits, Settle, Write, SetInvoice;
    if s.mem.invoices[k].associated.Some? {
      AssociatedIsPrepay(env, w, s.mem, k);
      var q := s.mem.invoices[k].associated.value;
      if q in s.mem.invoices && s.mem.invoices[q].status.FUNDED? && q in s.mem.preimages
         && env.sha256(s.mem.preimages[q]) == q {
        var (inv, ok) := Settle(s.mem.invoices[q], s.mem.preimages[q], env.sha256);
        SettledPrepayFits(env, w, s.mem, q, s.mem.preimages[q]);
        SettleDerives(s.mem.invoices[q], s.mem.preimages[q], env.sha256);
        if ok {
          SetInvoiceHalf(env, w, s, q, inv);
          WriteGood(env, w, SetInvoice(s, q, inv), consolidate);
          UpdateOfTouch(s, q, inv, consolidate);
        } else {
          TouchGood(env, w, s, q, inv);
        }
      }
    }
  }

  /** When the prepay invoice was settled and the callback may run: the prepay invoice is SETTLED in the durable
      image as well, and nothing else changed but invoices' durable copies. */
  lemma SettlePrepayResult(env: Env, w: World, s: State, k: Hash, consolidate: bool)
    requires WorldOk(env, w) && Good(env, w, s) && k in s.mem.invoices && s.mem.invoices[k].status.FUNDED?
    requires s.mem.invoices[k].associated.Some?
    requires SettlePrepay(s, k, env.sha256, consolidate).proceed
    ensures var s' := SettlePrepay(s, k, env.sha256, consolidate).state;
            var q := s.mem.invoices[k].associated.value;
            && q in s.mem.invoices && s.mem.invoices[q].status.FUNDED?
            && PrepaySettled(s', q) && q in s'.disk.invoices && s'.disk.invoices[q].status.SETTLED?
            && k in s'.mem.invoices && s'.mem.invoices[k] == s.mem.invoices[k]
            && s'.mem.swaps == s.mem.swaps
            && s'.callbacks == s.callbacks && s'.sweep == s.sweep
            && s'.watching == s.watching && s'.creating == s.creating
  {
    hide ImageOk, WorldOk, Linked, Settle;
    AssociatedIsPrepay(env, w, s.mem, k);
    var q := s.mem.invoices[k].associated.value;
    SettleDerives(s.mem.invoices[q], s.mem.preimages[q], env.sha256);
  }

  lemma FailSwapGood(env: Env, w: World, s: State, k: Hash, swap: Swap, consolidate: bool)
    requires Good(env, w, s)
    ensures Good(env, w, FailSwap(s, k, swap, consolidate).0)
    ensures FailSwap(s, k, swap, consolidate).0.mem.invoices == s.mem.invoices
    ensures forall q :: PrepaySettled(s, q) ==> PrepaySettled(FailSwap(s, k, swap, consolidate).0, q)
  {
    var s' := s.(watching := s.watching - {k}, toPay := s.toPay - {k});
    if swap.fundingTxid.None? || swap.isRedeemed {
      if k in s'.mem.swaps {
        PopSwapHalf(env, w, s', k);
        WriteGood(env, w, PopSwap(s', k), consolidate);
      }
    } else {
      WriteGood(env, w, s', consolidate);
    }
  }

  /** An attribute write that keeps what the swap was created with and never forgets the funding transaction. */
  predicate SwapMovesOn(a: Swap, b: Swap)
  {
    && b.isReverse == a.isReverse && b.lock == a.lock && b.onchainAmount == a.onchainAmount
    && b.lightningAmount == a.lightningAmount && b.prepayHash == a.prepayHash
    && (a.fundingTxid.Some? ==> b.fundingTxid.Some?) && (a.preimage.Some? ==> b.preimage.Some?)
    && (a.isReverse ==> b.preimage == a.preimage)
  }

  lemma SetSwapMovesOn(env: Env, w: World, s: State, k: Hash, swap: Swap)
    requires Good(env, w, s) && k in s.mem.swaps && SwapMovesOn(s.mem.swaps[k], swap)
    ensures Good(env, w, SetSwap(s, k, swap))
  {
    assert SwapOk(env, w, k, s.mem.swaps[k]);
    if k in s.mem.invoices {
      assert CrossOk(s.mem.invoices[k], s.mem.swaps[k]);
      assert CrossOk(s.tracked.invoices[k], s.tracked.swaps[k]);
    }
    SetSwapGood(env, w, s, k, swap);
  }

  lemma HoldInvoiceCallbackGood(env: Env, w: World, s: State, k: Hash, f: FundingResult, consolidate: bool)
    requires Good(env, w, s)
    ensures var r := HoldInvoiceCallback(s, k, f, consolidate);
            && Good(env, w, r.state)
            && r.state.mem.invoices == s.mem.invoices
            && (forall q :: PrepaySettled(s, q) ==> PrepaySettled(r.state, q))
            && (r.attempted ==> k in s.mem.swaps && s.mem.swaps[k].fundingTxid.None?)
  {
    hide Good;
    if k in s.mem.swaps && s.mem.swaps[k].fundingTxid.None? {
      var swap := s.mem.swaps[k];
      match f {
        case CreateRaises =>
        case NoTransaction =>
          FailSwapGood(env, w, s, k, swap, consolidate);
        case SendFails(txid) =>
          var swap' := swap.(fundingTxid := Some(txid));
          SetSwapMovesOn(env, w, s, k, swap');
          FailSwapGood(env, w, SetSwap(s, k, swap'), k, swap', consolidate);
        case Sent(txid) =>
          SetSwapMovesOn(env, w, s, k, swap.(fundingTxid := Some(txid)));
      }
    }
  }

  lemma AppendedIsDistinct(env: Env, w: World, k: Hash)
    requires WorldOk(env, w) && k !in w.fundings
    ensures forall i, j :: 0 <= i < j < |w.fundings + [k]| ==> (w.fundings + [k])[i] != (w.fundings + [k])[j]
  {
  }

  lemma FundedEverywhere(env: Env, w: World, s: State, k: Hash)
    requires Linked(s) && s.disk.invoices == s.tracked.invoices
    requires k in w.terms && PrepaySettled(s, w.terms[k].request.prepayHash)
    requires k in s.mem.invoices && s.mem.invoices[k].status.FUNDED?
    ensures FundedOk(env, w, s.mem, k) && FundedOk(env, w, s.tracked, k) && FundedOk(env, w, s.disk, k)
  {
  }

  /** Recording the first funding of a swap whose prepay invoice is durably settled. */
  lemma FundingRecorded(env: Env, w: World, s: State, k: Hash)
    requires WorldOk(env, w) && Good(env, w, s)
    requires k in w.terms && k !in w.fundings && PrepaySettled(s, w.terms[k].request.prepayHash)
    requires k in s.mem.invoices && s.mem.invoices[k].status.FUNDED?
    ensures WorldOk(env, w.(fundings := w.fundings + [k])) && Good(env, w.(fundings := w.fundings + [k]), s)
  {
    hide WorldOk, ImageOk, Linked, FundedOk;
    AppendedIsDistinct(env, w, k);
    FundingsWorldOk(env, w, w.fundings + [k]);
    assert FundedOk(env, w, s.mem, k) && FundedOk(env, w, s.tracked, k) && FundedOk(env, w, s.disk, k) by {
      FundedEverywhere(env, w, s, k);
    }
    FundingsImageOk(env, w, k, s.mem);
    FundingsImageOk(env, w, k, s.tracked);
    FundingsImageOk(env, w, k, s.disk);
  }

  lemma FundingsWorldOk(env: Env, w: World, fundings: seq<Hash>)
    requires WorldOk(env, w)
    requires forall i, j :: 0 <= i < j < |fundings| ==> fundings[i] != fundings[j]
    ensures WorldOk(env, w.(fundings := fundings))
  {
    var w' := w.(fundings := fundings);
    forall t | t in w'.terms ensures TermsOk(env, w', t) {
      assert TermsOk(env, w, t);
    }
    forall q | q in w'.prepayments ensures PrepaymentOk(w', q) {
      assert PrepaymentOk(w, q);
    }
    forall r | r in w'.refunds ensures RefundOk(w', r) {
      assert RefundOk(w, r);
    }
    forall r | r in w'.claims ensures ReverseClaimOk(env, w', r) {
      assert ReverseClaimOk(env, w, r);
    }
    assert LockupsOk(env, w');
    forall t | t in w'.resolved && t in w'.terms ensures Claimed(env, w', t) {
      assert Claimed(env, w, t);
    }
  }

  lemma FundingsImageOk(env: Env, w: World, k: Hash, im: Image)
    requires ImageOk(env, w, im) && FundedOk(env, w, im, k)
    ensures ImageOk(env, w.(fundings := w.fundings + [k]), im)
  {
    var w' := w.(fundings := w.fundings + [k]);
    forall h | h in im.invoices ensures InvoiceOk(env, w', h, im.invoices[h]) {
      SameRulesInvoiceOk(env, w, w', h, im.invoices[h]);
    }
    forall f | f in w'.fundings ensures FundedOk(env, w', im, f) {
      assert FundedOk(env, w, im, f);
    }
    forall t | t in im.swaps ensures SwapOk(env, w', t, im.swaps[t]) {
      assert SwapOk(env, w, t, im.swaps[t]);
    }
  }

  /** The rules for an invoice do not depend on the funding log. */
  lemma SameRulesInvoiceOk(env: Env, w: World, w': World, h: Hash, inv: InvoiceRecord)
    requires InvoiceOk(env, w, h, inv)
    requires w' == w.(fundings := w'.fundings)
    ensures InvoiceOk(env, w', h, inv)
  {
    if h in w.terms {
      var lt := w.terms[h].request.lock.locktime;
      forall i | 0 <= i < |inv.htlcs| ensures LateEnough(w', h, lt, inv.htlcs[i]) {
        assert LateEnough(w, h, lt, inv.htlcs[i]);
      }
    }
    if h in w.prepayments && w.prepayments[h] in w.terms {
      var lt := w.terms[w.prepayments[h]].request.lock.locktime;
      forall i | 0 <= i < |inv.htlcs| ensures LateEnough(w', h, lt, inv.htlcs[i]) {
        assert LateEnough(w, h, lt, inv.htlcs[i]);
      }
    }
  }
}
