/** What holds in every reachable state of the provider, and that every step keeps it. */
module ProviderInvariant {
  import opened Common
  import opened Invoices
  import opened LockScript
  import opened Provider
  import opened ProviderRuns

  // ---- The invariant ----

  const CLTV_MARGIN := 74

  /** An HTLC that may still be claimed expires at least 74 blocks after the swap's locktime. */
  predicate LateEnough(w: World, k: Hash, locktime: int, h: HtlcRecord)
  {
    h.state.Accepted? ==>
      IdOf(k, h) in w.arrivals && w.arrivals[IdOf(k, h)].expiry >= locktime + CLTV_MARGIN
  }

  predicate AllLateEnough(w: World, k: Hash, locktime: int, hs: seq<HtlcRecord>)
  {
    forall i :: 0 <= i < |hs| ==> LateEnough(w, k, locktime, hs[i])
  }

  /** An HTLC that was not refused arrived with the payment secret of a readable invoice, and early enough. */
  predicate Vetted(w: World, k: Hash, b: Bolt11, h: HtlcRecord)
  {
    !h.state.Cancelled? ==>
      && IdOf(k, h) in w.arrivals
      && var a := w.arrivals[IdOf(k, h)];
         && a.decodeOk && a.secret == Some(b.paymentSecret)
         && a.cltvRelative >= b.minFinalCltv && a.cltvRelative >= 144
  }

  predicate AllVetted(w: World, k: Hash, b: Bolt11, hs: seq<HtlcRecord>)
  {
    forall i :: 0 <= i < |hs| ==> Vetted(w, k, b, hs[i])
  }

  predicate MainOk(env: Env, w: World, k: Hash, inv: InvoiceRecord)
    requires k in w.terms
  {
    var r := w.terms[k].request;
    && inv.amountMsat == MainSat(r) * 1000
    && (inv.associated.Some? ==> inv.associated.value == r.prepayHash)
    && AllLateEnough(w, k, r.lock.locktime, inv.htlcs)
    && (Has(inv.htlcs, Settled) ==> Claimed(env, w, k))
  }

  predicate PrepayOk(w: World, q: Hash, inv: InvoiceRecord)
    requires q in w.prepayments && w.prepayments[q] in w.terms
  {
    var r := w.terms[w.prepayments[q]].request;
    && inv.amountMsat == r.prepaySat * 1000
    && inv.associated.None?
    && AllLateEnough(w, q, r.lock.locktime, inv.htlcs)
  }

  predicate InvoiceOk(env: Env, w: World, h: Hash, inv: InvoiceRecord)
  {
    && WellFormed(inv) && inv.paymentHash == h && AllVetted(w, h, inv.bolt11, inv.htlcs)
    && (h in w.terms || (h in w.prepayments && w.prepayments[h] in w.terms))
    && (h in w.terms ==> MainOk(env, w, h, inv))
    && (h in w.prepayments && w.prepayments[h] in w.terms ==> PrepayOk(w, h, inv))
  }

  predicate IsPreimage(env: Env, k: Hash, p: Bytes)
  {
    |p| == 32 && env.sha256(p) == k
  }

  predicate SwapOk(env: Env, w: World, k: Hash, swap: Swap)
  {
    && k in w.used
    && (if swap.isReverse then
          && k !in w.terms && k !in w.prepayments && k in w.reversals
          && w.reversals[k] == Reversal(swap.lock, swap.onchainAmount)
          && swap.preimage.Some? && IsPreimage(env, k, swap.preimage.value)
        else
          k in w.terms
          && var r := w.terms[k].request;
             && swap.lock == r.lock && swap.onchainAmount == r.onchainSat && swap.lightningAmount == r.lightningSat
             && swap.prepayHash == Some(r.prepayHash))
  }

  /** A swap and its hold invoice in the same image. */
  predicate CrossOk(inv: InvoiceRecord, swap: Swap)
  {
    !swap.isReverse ==>
      && inv.associated == swap.prepayHash
      && (Has(inv.htlcs, Settled) ==> swap.fundingTxid.Some? && swap.preimage.Some?)
  }

  /** The image still holds the swap, without a preimage. */
  predicate Unrevealed(swaps: map<Hash, Swap>, k: Hash)
  {
    k in swaps && swaps[k].preimage.None?
  }

  /** What an image says about a swap whose funding transaction was sent: its invoices are there until the lockup output
      was claimed and the image knows the preimage or has forgotten the swap. */
  predicate FundedOk(env: Env, w: World, im: Image, k: Hash)
  {
    && k in w.terms
    && var q := w.terms[k].request.prepayHash;
       && (q in im.invoices ==> im.invoices[q].status.SETTLED?)
       && ((Claimed(env, w, k) && !Unrevealed(im.swaps, k))
           || (q in im.invoices && k in im.invoices && im.invoices[k].status.FUNDED?))
  }

  predicate ImageOk(env: Env, w: World, im: Image)
  {
    && (forall h :: h in im.invoices ==> InvoiceOk(env, w, h, im.invoices[h]))
    && (forall k :: k in im.swaps ==> SwapOk(env, w, k, im.swaps[k]))
    && (forall k :: k in im.swaps && k in im.invoices ==> CrossOk(im.invoices[k], im.swaps[k]))
    && (forall k :: k in w.fundings ==> FundedOk(env, w, im, k))
    && im.preimages.Keys <= w.used
  }

  /** The same HTLCs, of which some were resolved. */
  predicate MovedOn(a: seq<HtlcRecord>, b: seq<HtlcRecord>)
  {
    |a| == |b| && Extends(a, b)
  }

  /** The live tree against its tracked image: same keys, and live invoices only moved on from their tracked form. */
  predicate Linked(s: State)
  {
    && s.mem.swaps == s.tracked.swaps && s.mem.preimages == s.tracked.preimages
    && s.mem.invoices.Keys == s.tracked.invoices.Keys
    && (forall h :: h in s.mem.invoices && s.mem.invoices[h].status.FUNDED? ==> s.tracked.invoices[h].status.FUNDED?)
    && (forall h :: h in s.mem.invoices ==> MovedOn(s.tracked.invoices[h].htlcs, s.mem.invoices[h].htlcs))
  }

  predicate TablesOk(w: World, s: State)
  {
    && s.callbacks <= w.used && s.sweep <= w.used
    && s.watching <= s.mem.swaps.Keys && s.creating <= s.mem.swaps.Keys
    && s.creating !! s.watching && s.creating !! s.callbacks && s.creating !! s.sweep
  }

  /** A lockup output was only ever spent by a claim or by the provider's refund. */
  predicate SpentProperly(env: Env, lock: Lock, txo: Txo)
  {
    txo.spent.Some? ==> ClaimsLockup(env, lock, txo.spent.value) || IsProviderRefund(txo.spent.value)
  }

  predicate TermsOk(env: Env, w: World, k: Hash)
    requires k in w.terms
  {
    var t := w.terms[k];
    var r := t.request;
    && r.paymentHash == k && k in w.used
    && r.prepayHash in w.prepayments && w.prepayments[r.prepayHash] == k
    && r.lock.Valid() && r.lock.hash == env.ripemd(k)
    && 0 <= r.lock.locktime <= w.height + LOCKTIME_DELTA_REFUND
    && t.fees.den > 0 && 0 <= t.fees.num < 100 * t.fees.den
    && Fees.GetRecvAmount(t.fees, Some(r.lightningSat), true) == Some(r.onchainSat)
  }

  predicate PrepaymentOk(w: World, q: Hash)
    requires q in w.prepayments
  {
    var k := w.prepayments[q];
    k in w.terms && q in w.used && q !in w.terms && w.terms[k].request.prepayHash == q
  }

  predicate LockupsOk(env: Env, w: World)
  {
    forall k, i :: k in w.lockups && k in w.terms && 0 <= i < |w.lockups[k]| ==>
      SpentProperly(env, SwapLock(w, k), w.lockups[k][i])
  }

  predicate RefundOk(w: World, r: Refund)
  {
    && r.hash in w.terms && r.height >= SwapLock(w, r.hash).locktime
    && (r.preimage.Some? ==> r.preimage.value == [])
    && r.output.spent.None? && r.locktime == SwapLock(w, r.hash).locktime
  }

  /** One of the outputs is this one, spent or not. */
  predicate Holds(outputs: seq<Txo>, txo: Txo)
  {
    exists i :: 0 <= i < |outputs| && outputs[i].txid == txo.txid && outputs[i].value == txo.value
  }

  /** A preimage was revealed against a confirmed and unspent lockup output of at least the amount agreed on. */
  predicate ReverseClaimOk(env: Env, w: World, r: ReverseClaim)
  {
    && r.hash in w.reversals && r.fundingConf > 0
    && r.output.spent.None? && r.output.value >= w.reversals[r.hash].onchainSat
    && IsPreimage(env, r.hash, r.preimage)
    && r.hash in w.lockups && Holds(w.lockups[r.hash], r.output)
  }

  predicate ReversalOk(env: Env, k: Hash, r: Reversal)
  {
    r.lock.Valid() && r.lock.hash == env.ripemd(k)
  }

  predicate WorldOk(env: Env, w: World)
  {
    && (forall k :: k in w.terms ==> TermsOk(env, w, k))
    && (forall q :: q in w.prepayments ==> PrepaymentOk(w, q))
    && LockupsOk(env, w) && w.lockups.Keys <= w.used && w.resolved <= w.used
    && (forall i, j :: 0 <= i < j < |w.fundings| ==> w.fundings[i] != w.fundings[j])
    && (forall k :: k in w.resolved && k in w.terms ==> Claimed(env, w, k))
    && (forall r :: r in w.refunds ==> RefundOk(w, r))
    && w.reversals.Keys <= w.used && (forall k :: k in w.reversals ==> ReversalOk(env, k, w.reversals[k]))
    && (forall r :: r in w.claims ==> ReverseClaimOk(env, w, r))
  }

  /** The live and tracked images, between the edits of one step. */
  predicate Half(env: Env, w: World, s: State)
  {
    ImageOk(env, w, s.mem) && ImageOk(env, w, s.tracked) && Linked(s)
  }

  predicate Good(env: Env, w: World, s: State)
  {
    Half(env, w, s) && ImageOk(env, w, s.disk) && s.disk.invoices == s.tracked.invoices
  }

  predicate Inv(env: Env, w: World, s: State)
  {
    WorldOk(env, w) && Good(env, w, s) && TablesOk(w, s)
  }

  // ---- Edits ----

  /** update_invoice after a method call saves what the call left. */
  lemma UpdateOfTouch(s: State, k: Hash, inv: InvoiceRecord, consolidate: bool)
    ensures UpdateInvoice(Touch(s, k, inv), k, consolidate) == Write(SetInvoice(s, k, inv), consolidate)
  {
    assert s.mem.invoices[k := inv][k := inv] == s.mem.invoices[k := inv];
  }

  /** An invoice may replace the one at h as far as the swap and the sent funding transactions are concerned. */
  predicate Fits(env: Env, w: World, im: Image, h: Hash, inv: InvoiceRecord)
  {
    && InvoiceOk(env, w, h, inv)
    && (h in im.swaps ==> CrossOk(inv, im.swaps[h]))
    && (forall k :: k in w.fundings && k in w.terms ==>
          && (h == w.terms[k].request.prepayHash ==> inv.status.SETTLED?)
          && (h == k ==> (Claimed(env, w, k) && !Unrevealed(im.swaps, k)) || inv.status.FUNDED?))
  }

  lemma PutOk(env: Env, w: World, im: Image, h: Hash, inv: InvoiceRecord)
    requires ImageOk(env, w, im) && Fits(env, w, im, h, inv)
    ensures ImageOk(env, w, im.(invoices := im.invoices[h := inv]))
  {
    var im' := im.(invoices := im.invoices[h := inv]);
    forall k | k in w.fundings ensures FundedOk(env, w, im', k) {
      assert FundedOk(env, w, im, k);
    }
  }

  predicate MayDrop(env: Env, w: World, swaps: map<Hash, Swap>, h: Hash)
  {
    forall k :: k in w.fundings && k in w.terms && (h == k || h == w.terms[k].request.prepayHash) ==>
      Claimed(env, w, k) && !Unrevealed(swaps, k)
  }

  lemma DropOk(env: Env, w: World, im: Image, h: Hash)
    requires ImageOk(env, w, im) && MayDrop(env, w, im.swaps, h)
    ensures ImageOk(env, w, im.(invoices := im.invoices - {h}))
  {
    var im' := im.(invoices := im.invoices - {h});
    forall k | k in w.fundings ensures FundedOk(env, w, im', k) {
      assert FundedOk(env, w, im, k);
    }
  }

  lemma SwapPutOk(env: Env, w: World, im: Image, k: Hash, swap: Swap)
    requires ImageOk(env, w, im) && SwapOk(env, w, k, swap)
    requires k in im.invoices ==> CrossOk(im.invoices[k], swap)
    requires k in w.fundings && swap.preimage.None? ==> Unrevealed(im.swaps, k)
    ensures ImageOk(env, w, im.(swaps := im.swaps[k := swap]))
  {
    var im' := im.(swaps := im.swaps[k := swap]);
    forall f | f in w.fundings ensures FundedOk(env, w, im', f) {
      assert FundedOk(env, w, im, f);
    }
  }

  /** Fewer swaps, and other preimages. */
  lemma FewerSwapsOk(env: Env, w: World, im: Image, im': Image)
    requires ImageOk(env, w, im)
    requires im'.invoices == im.invoices && im'.preimages.Keys <= w.used
    requires forall k :: k in im'.swaps ==> k in im.swaps && im'.swaps[k] == im.swaps[k]
    ensures ImageOk(env, w, im')
  {
    forall f | f in w.fundings ensures FundedOk(env, w, im', f) {
      assert FundedOk(env, w, im, f);
    }
  }

  // ---- Derived invoices ----

  /** The HTLCs keep their identity, and none becomes accepted or leaves CANCELLED. */
  predicate Derived(a: seq<HtlcRecord>, b: seq<HtlcRecord>)
  {
    && |a| == |b|
    && forall i :: 0 <= i < |a| ==>
         && SameHtlc(a[i], b[i]) && (b[i].state.Accepted? ==> a[i].state.Accepted?)
         && (a[i].state.Cancelled? ==> b[i].state.Cancelled?)
  }

  lemma DerivedLateEnough(w: World, k: Hash, locktime: int, a: seq<HtlcRecord>, b: seq<HtlcRecord>)
    requires AllLateEnough(w, k, locktime, a) && Derived(a, b)
    ensures AllLateEnough(w, k, locktime, b)
  {
    forall i | 0 <= i < |b| ensures LateEnough(w, k, locktime, b[i]) {
      assert LateEnough(w, k, locktime, a[i]) && SameHtlc(a[i], b[i]);
    }
  }

  lemma DerivedVetted(w: World, k: Hash, b: Bolt11, hs: seq<HtlcRecord>, hs': seq<HtlcRecord>)
    requires AllVetted(w, k, b, hs) && Derived(hs, hs')
    ensures AllVetted(w, k, b, hs')
  {
    forall i | 0 <= i < |hs'| ensures Vetted(w, k, b, hs'[i]) {
      assert Vetted(w, k, b, hs[i]) && SameHtlc(hs[i], hs'[i]);
    }
  }

  /** An invoice with the same terms, derived HTLCs and no new settled HTLC stays well placed. */
  lemma DerivedInvoiceOk(env: Env, w: World, h: Hash, inv: InvoiceRecord, inv': InvoiceRecord)
    requires InvoiceOk(env, w, h, inv) && WellFormed(inv') && Derived(inv.htlcs, inv'.htlcs)
    requires inv'.paymentHash == inv.paymentHash && inv'.amountMsat == inv.amountMsat
             && inv'.associated == inv.associated && inv'.bolt11 == inv.bolt11
    requires h in w.terms && Has(inv'.htlcs, Settled) ==> Has(inv.htlcs, Settled) || Claimed(env, w, h)
    ensures InvoiceOk(env, w, h, inv')
  {
    DerivedVetted(w, h, inv.bolt11, inv.htlcs, inv'.htlcs);
    if h in w.terms {
      DerivedLateEnough(w, h, w.terms[h].request.lock.locktime, inv.htlcs, inv'.htlcs);
    }
    if h in w.prepayments && w.prepayments[h] in w.terms {
      DerivedLateEnough(w, h, w.terms[w.prepayments[h]].request.lock.locktime, inv.htlcs, inv'.htlcs);
    }
  }

  lemma StoredInvoiceOk(env: Env, w: World, h: Hash, inv: InvoiceRecord)
    requires InvoiceOk(env, w, h, inv)
    ensures InvoiceOk(env, w, h, Stored(inv))
    ensures Has(Stored(inv).htlcs, Settled) ==> Has(inv.htlcs, Settled)
  {
    StoredKeepsWellFormed(inv);
    DerivedInvoiceOk(env, w, h, inv, Stored(inv));
  }

  lemma StoredFits(env: Env, w: World, im: Image, h: Hash, inv: InvoiceRecord)
    requires Fits(env, w, im, h, inv)
    ensures Fits(env, w, im, h, Stored(inv))
  {
    StoredInvoiceOk(env, w, h, inv);
  }

  lemma DumpOk(env: Env, w: World, im: Image)
    requires ImageOk(env, w, im)
    ensures ImageOk(env, w, Dump(im))
  {
    var im' := Dump(im);
    forall h | h in im'.invoices ensures InvoiceOk(env, w, h, im'.invoices[h]) {
      StoredInvoiceOk(env, w, h, im.invoices[h]);
    }
    forall k | k in im'.swaps && k in im'.invoices ensures CrossOk(im'.invoices[k], im'.swaps[k]) {
      StoredInvoiceOk(env, w, k, im.invoices[k]);
      assert CrossOk(im.invoices[k], im.swaps[k]);
    }
    forall k | k in w.fundings ensures FundedOk(env, w, im', k) {
      assert FundedOk(env, w, im, k);
    }
  }

  // ---- Edits of the state ----

  lemma ExtendsStored(hs: seq<HtlcRecord>)
    ensures MovedOn(StoredHtlcs(hs), hs)
  {
  }

  lemma ExtendsTransitive(a: seq<HtlcRecord>, b: seq<HtlcRecord>, c: seq<HtlcRecord>)
    requires Extends(a, b) && Extends(b, c)
    ensures Extends(a, c)
  {
    forall i | 0 <= i < |a| ensures SameHtlc(a[i], c[i]) && (a[i].state.Accepted? || a[i].state == c[i].state) {
      assert SameHtlc(a[i], b[i]) && SameHtlc(b[i], c[i]);
    }
  }

  lemma WriteGood(env: Env, w: World, s: State, consolidate: bool)
    requires Half(env, w, s)
    ensures Good(env, w, Write(s, consolidate))
  {
    if consolidate {
      DumpOk(env, w, s.mem);
      forall h | h in s.mem.invoices ensures MovedOn(Stored(s.mem.invoices[h]).htlcs, s.mem.invoices[h].htlcs) {
        ExtendsStored(s.mem.invoices[h].htlcs);
      }
    }
  }

  lemma SetInvoiceHalf(env: Env, w: World, s: State, h: Hash, inv: InvoiceRecord)
    requires Half(env, w, s) && Fits(env, w, s.mem, h, inv)
    ensures Half(env, w, SetInvoice(s, h, inv))
  {
    PutOk(env, w, s.mem, h, inv);
    StoredFits(env, w, s.tracked, h, inv);
    PutOk(env, w, s.tracked, h, Stored(inv));
    ExtendsStored(inv.htlcs);
  }

  /** A method call on a live invoice that is not followed by a save. */
  lemma TouchGood(env: Env, w: World, s: State, h: Hash, inv: InvoiceRecord)
    requires Good(env, w, s) && h in s.mem.invoices && Fits(env, w, s.mem, h, inv)
    requires MovedOn(s.mem.invoices[h].htlcs, inv.htlcs)
    requires inv.status.FUNDED? ==> s.mem.invoices[h].status.FUNDED?
    ensures Good(env, w, Touch(s, h, inv))
  {
    PutOk(env, w, s.mem, h, inv);
    ExtendsTransitive(s.tracked.invoices[h].htlcs, s.mem.invoices[h].htlcs, inv.htlcs);
  }

  lemma SetSwapGood(env: Env, w: World, s: State, k: Hash, swap: Swap)
    requires Good(env, w, s) && SwapOk(env, w, k, swap)
    requires k in s.mem.invoices ==> CrossOk(s.mem.invoices[k], swap) && CrossOk(s.tracked.invoices[k], swap)
    requires k in w.fundings && swap.preimage.None? ==> Unrevealed(s.mem.swaps, k)
    ensures Good(env, w, SetSwap(s, k, swap))
  {
    SwapPutOk(env, w, s.mem, k, swap);
    SwapPutOk(env, w, s.tracked, k, swap);
  }

  lemma PopSwapHalf(env: Env, w: World, s: State, k: Hash)
    requires Half(env, w, s)
    ensures Half(env, w, PopSwap(s, k))
  {
    FewerSwapsOk(env, w, s.mem, PopSwap(s, k).mem);
    FewerSwapsOk(env, w, s.tracked, PopSwap(s, k).tracked);
  }

  lemma DropHoldInvoiceHalf(env: Env, w: World, s: State, h: Hash)
    requires Half(env, w, s) && MayDrop(env, w, s.mem.swaps, h)
    ensures Half(env, w, DropHoldInvoice(s, h))
  {
    DropOk(env, w, s.mem, h);
    DropOk(env, w, s.tracked, h);
  }
}
