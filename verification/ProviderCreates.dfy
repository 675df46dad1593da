/** Creating swaps, growing history and restarting keep the invariant. */
module ProviderCreates {
  import opened Common
  import opened Invoices
  import opened Provider
  import opened ProviderRuns
  import opened ProviderInvariant

  // ---- A later world ----

  /** History only grows: what was recorded stays, and what is new was never used before. */
  predicate Later(env: Env, w: World, w': World)
  {
    && (forall k :: k in w.terms ==> k in w'.terms && w'.terms[k] == w.terms[k])
    && (forall k :: k in w'.terms && k !in w.terms ==> k !in w.used)
    && (forall q :: q in w.prepayments ==> q in w'.prepayments && w'.prepayments[q] == w.prepayments[q])
    && (forall q :: q in w'.prepayments && q !in w.prepayments ==> q !in w.used)
    && (forall k :: k in w.reversals ==> k in w'.reversals && w'.reversals[k] == w.reversals[k])
    && w.used <= w'.used && w'.arrivals == w.arrivals && w'.fundings == w.fundings
    && (forall k :: k in w.terms && Claimed(env, w, k) ==> Claimed(env, w', k))
  }

  lemma InvoiceHashIsUsed(env: Env, w: World, h: Hash, inv: InvoiceRecord)
    requires WorldOk(env, w) && InvoiceOk(env, w, h, inv)
    ensures h in w.used
  {
    if h in w.terms {
      assert TermsOk(env, w, h);
    } else {
      assert PrepaymentOk(w, h);
    }
  }

  lemma LaterLateEnough(w: World, w': World, k: Hash, locktime: int, hs: seq<HtlcRecord>)
    requires AllLateEnough(w, k, locktime, hs) && w'.arrivals == w.arrivals
    ensures AllLateEnough(w', k, locktime, hs)
  {
    forall i | 0 <= i < |hs| ensures LateEnough(w', k, locktime, hs[i]) {
      assert LateEnough(w, k, locktime, hs[i]);
    }
  }

  lemma LaterInvoiceOk(env: Env, w: World, w': World, h: Hash, inv: InvoiceRecord)
    requires WorldOk(env, w) && InvoiceOk(env, w, h, inv) && Later(env, w, w')
    ensures InvoiceOk(env, w', h, inv)
  {
    InvoiceHashIsUsed(env, w, h, inv);
    if h in w.terms {
      LaterLateEnough(w, w', h, w.terms[h].request.lock.locktime, inv.htlcs);
    }
    if h in w.prepayments && w.prepayments[h] in w.terms {
      LaterLateEnough(w, w', h, w.terms[w.prepayments[h]].request.lock.locktime, inv.htlcs);
    }
  }

  lemma LaterImageOk(env: Env, w: World, w': World, im: Image)
    requires WorldOk(env, w) && ImageOk(env, w, im) && Later(env, w, w')
    ensures ImageOk(env, w', im)
  {
    forall h | h in im.invoices ensures InvoiceOk(env, w', h, im.invoices[h]) {
      LaterInvoiceOk(env, w, w', h, im.invoices[h]);
    }
    forall k | k in im.swaps ensures SwapOk(env, w', k, im.swaps[k]) {
      assert SwapOk(env, w, k, im.swaps[k]);
    }
    forall f | f in w'.fundings ensures FundedOk(env, w', im, f) {
      assert FundedOk(env, w, im, f);
    }
  }

  lemma LaterGood(env: Env, w: World, w': World, s: State)
    requires WorldOk(env, w) && Good(env, w, s) && Later(env, w, w')
    ensures Good(env, w', s)
  {
    hide WorldOk, ImageOk, Later;
    LaterImageOk(env, w, w', s.mem);
    LaterImageOk(env, w, w', s.tracked);
    LaterImageOk(env, w, w', s.disk);
  }

  // ---- The request of a swap ----

  predicate Fresh(w: World, r: Request)
  {
    && r.paymentHash !in w.used && r.prepayHash !in w.used && r.paymentHash != r.prepayHash
    && r.paymentHash !in w.terms && r.prepayHash !in w.prepayments
  }

  lemma GoodRequestIsFresh(env: Env, w: World, r: Request, fees: Fees.Schedule, h: nat)
    requires WorldOk(env, w) && GoodRequest(env, w, r, fees, h)
    ensures Fresh(w, r)
  {
    assert r.paymentHash in w.terms ==> TermsOk(env, w, r.paymentHash);
    assert r.prepayHash in w.prepayments ==> PrepaymentOk(w, r.prepayHash);
  }

  /** Being claimed depends on the lock and the lockup outputs only. */
  lemma SameLockupsSameClaim(env: Env, w: World, w': World, k: Hash)
    requires k in w.terms && k in w'.terms && SwapLock(w', k) == SwapLock(w, k) && w'.lockups == w.lockups
    ensures Claimed(env, w', k) <==> Claimed(env, w, k)
  {
  }

  lemma AfterCreateLater(env: Env, w: World, r: Request, fees: Fees.Schedule)
    requires Fresh(w, r)
    ensures Later(env, w, AfterCreate(w, r, fees))
  {
    hide Claimed;
    var w' := AfterCreate(w, r, fees);
    forall k | k in w.terms && Claimed(env, w, k) ensures Claimed(env, w', k) {
      SameLockupsSameClaim(env, w, w', k);
    }
  }

  lemma AfterCreateRoles(env: Env, w: World, r: Request, fees: Fees.Schedule, h: nat)
    requires WorldOk(env, w) && GoodRequest(env, w, r, fees, h)
    ensures var w' := AfterCreate(w, r, fees);
            && (forall k :: k in w'.terms ==> TermsOk(env, w', k))
            && (forall q :: q in w'.prepayments ==> PrepaymentOk(w', q))
  {
    hide Claimed, LockupsOk, ReverseClaimOk, RefundOk;
    var w' := AfterCreate(w, r, fees);
    GoodRequestIsFresh(env, w, r, fees, h);
    forall k | k in w'.terms ensures TermsOk(env, w', k) {
      if k != r.paymentHash {
        assert TermsOk(env, w, k);
      }
    }
    forall q | q in w'.prepayments ensures PrepaymentOk(w', q) {
      if q != r.prepayHash {
        assert PrepaymentOk(w, q) && TermsOk(env, w, w.prepayments[q]);
      }
    }
  }

  lemma AfterCreateHistory(env: Env, w: World, r: Request, fees: Fees.Schedule)
    requires WorldOk(env, w) && Fresh(w, r)
    ensures var w' := AfterCreate(w, r, fees);
            && (forall x :: x in w'.refunds ==> RefundOk(w', x))
            && (forall x :: x in w'.claims ==> ReverseClaimOk(env, w', x))
            && LockupsOk(env, w')
            && (forall k :: k in w'.resolved && k in w'.terms ==> Claimed(env, w', k))
  {
    hide TermsOk, PrepaymentOk, Claimed, SpentProperly, Holds;
    var w' := AfterCreate(w, r, fees);
    AfterCreateLater(env, w, r, fees);
    forall x | x in w'.refunds ensures RefundOk(w', x) {
      assert RefundOk(w, x);
    }
    forall x | x in w'.claims ensures ReverseClaimOk(env, w', x) {
      assert ReverseClaimOk(env, w, x);
    }
    forall k, i | k in w'.lockups && k in w'.terms && 0 <= i < |w'.lockups[k]|
      ensures SpentProperly(env, SwapLock(w', k), w'.lockups[k][i])
    {
      assert k in w.used && k != r.paymentHash;
      assert SpentProperly(env, SwapLock(w, k), w.lockups[k][i]);
    }
    forall k | k in w'.resolved && k in w'.terms ensures Claimed(env, w', k) {
      assert k in w.used && k != r.paymentHash && Claimed(env, w, k);
    }
  }

  lemma AfterCreateWorldOk(env: Env, w: World, r: Request, fees: Fees.Schedule, h: nat)
    requires WorldOk(env, w) && GoodRequest(env, w, r, fees, h)
    ensures WorldOk(env, AfterCreate(w, r, fees))
  {
    hide TermsOk, PrepaymentOk, Claimed, LockupsOk, ReverseClaimOk, RefundOk, GoodRequest;
    GoodRequestIsFresh(env, w, r, fees, h);
    AfterCreateRoles(env, w, r, fees, h);
    AfterCreateHistory(env, w, r, fees);
  }

  /** The invoices of a new request fit any image that never saw its hashes. */
  lemma NewInvoiceFits(env: Env, w: World, im: Image, h: Hash, inv: InvoiceRecord)
    requires WorldOk(env, w) && ImageOk(env, w, im) && h !in im.swaps
    requires inv.htlcs == [] && inv.status.UNFUNDED? && inv.paymentHash == h && inv.amountMsat > 0
    requires h in w.terms || h in w.prepayments
    requires h in w.terms ==>
               inv.amountMsat == MainSat(w.terms[h].request) * 1000
               && (inv.associated.Some? ==> inv.associated.value == w.terms[h].request.prepayHash)
    requires h in w.prepayments ==>
               w.prepayments[h] in w.terms && inv.amountMsat == w.terms[w.prepayments[h]].request.prepaySat * 1000
               && inv.associated.None?
    requires forall f :: f in w.fundings && f in w.terms ==> f != h && w.terms[f].request.prepayHash != h
    ensures Fits(env, w, im, h, inv)
  {
  }

  /** What the stages of create_normal_swap have done so far. */
  predicate StageOk(env: Env, w: World, s: State, r: Request, n: nat)
  {
    && Good(env, w, s)
    && (n < 5 ==> r.paymentHash !in s.mem.swaps && r.prepayHash !in s.mem.swaps)
    && (n == 4 ==>
          && r.paymentHash in s.mem.invoices && s.mem.invoices[r.paymentHash].htlcs == []
          && s.mem.invoices[r.paymentHash].associated == Some(r.prepayHash)
          && r.paymentHash in s.tracked.invoices && s.tracked.invoices[r.paymentHash].htlcs == []
          && s.tracked.invoices[r.paymentHash].associated == Some(r.prepayHash))
  }

  predicate Unfunded(w: World, r: Request)
  {
    forall f :: f in w.fundings && f in w.terms ==>
      && f != r.paymentHash && f != r.prepayHash
      && w.terms[f].request.prepayHash != r.paymentHash && w.terms[f].request.prepayHash != r.prepayHash
  }

  lemma SaveStage(env: Env, w: World, s: State, r: Request, n: nat, h: Hash, inv: InvoiceRecord, consolidate: bool)
    requires WorldOk(env, w) && StageOk(env, w, s, r, n) && n < 4
    requires h == r.paymentHash || h == r.prepayHash
    requires Fits(env, w, s.mem, h, inv)
    requires n == 3 ==> h == r.paymentHash && inv.htlcs == [] && inv.associated == Some(r.prepayHash)
    ensures StageOk(env, w, SaveHoldInvoice(s, h, inv, consolidate), r, n + 1)
  {
    hide ImageOk, WorldOk, Fits, Linked;
    SetInvoiceHalf(env, w, s, h, inv);
    WriteGood(env, w, SetInvoice(s, h, inv), consolidate);
  }

  lemma PreimageStage(env: Env, w: World, s: State, r: Request, consolidate: bool)
    requires StageOk(env, w, s, r, 1) && Placed(w, r)
    ensures StageOk(env, w, Write(SetPreimage(s, r.prepayHash, r.prepayPreimage), consolidate), r, 2)
  {
    var s' := SetPreimage(s, r.prepayHash, r.prepayPreimage);
    FewerSwapsOk(env, w, s.mem, s'.mem);
    FewerSwapsOk(env, w, s.tracked, s'.tracked);
    WriteGood(env, w, s', consolidate);
  }

  lemma SwapStage(env: Env, w: World, s: State, r: Request)
    requires WorldOk(env, w) && StageOk(env, w, s, r, 4) && Placed(w, r) && Unfunded(w, r)
    ensures Good(env, w, SetSwap(s, r.paymentHash, NewSwap(r)))
  {
    assert TermsOk(env, w, r.paymentHash);
    assert r.paymentHash !in w.fundings;
    hide ImageOk, WorldOk, Unfunded, Linked;
    SetSwapGood(env, w, s, r.paymentHash, NewSwap(r));
  }

  /** The two hashes of a request, each in its own role. */
  predicate Placed(w: World, r: Request)
  {
    && r.paymentHash in w.terms && w.terms[r.paymentHash].request == r && r.paymentHash !in w.prepayments
    && r.prepayHash in w.prepayments && w.prepayments[r.prepayHash] == r.paymentHash && r.prepayHash !in w.terms
    && r.prepayHash in w.used
  }

  lemma RequestIsPlaced(env: Env, w: World, r: Request)
    requires WorldOk(env, w) && r.paymentHash in w.terms && w.terms[r.paymentHash].request == r
    ensures Placed(w, r)
  {
    assert TermsOk(env, w, r.paymentHash) && PrepaymentOk(w, r.prepayHash);
    assert r.paymentHash in w.prepayments ==> PrepaymentOk(w, r.paymentHash);
  }

  lemma MainStage(env: Env, w: World, s: State, r: Request, n: nat, associated: Option<Hash>, consolidate: bool)
    requires WorldOk(env, w) && StageOk(env, w, s, r, n) && (n == 0 || n == 3) && Placed(w, r) && Unfunded(w, r)
    requires MainSat(r) > 0 && associated == if n == 3 then Some(r.prepayHash) else None
    ensures var inv := NewInvoice(r.paymentHash, r.main, MainSat(r), r.now).(associated := associated);
            StageOk(env, w, SaveHoldInvoice(s, r.paymentHash, inv, consolidate), r, n + 1)
  {
    hide WorldOk, ImageOk, Linked, Fits, SaveHoldInvoice;
    var inv := NewInvoice(r.paymentHash, r.main, MainSat(r), r.now).(associated := associated);
    NewInvoiceFits(env, w, s.mem, r.paymentHash, inv);
    SaveStage(env, w, s, r, n, r.paymentHash, inv, consolidate);
  }

  lemma PrepayStage(env: Env, w: World, s: State, r: Request, consolidate: bool)
    requires WorldOk(env, w) && StageOk(env, w, s, r, 2) && Placed(w, r) && Unfunded(w, r)
    requires r.prepaySat > 0
    ensures var inv := NewInvoice(r.prepayHash, r.prepay, r.prepaySat, r.now);
            StageOk(env, w, SaveHoldInvoice(s, r.prepayHash, inv, consolidate), r, 3)
  {
    hide WorldOk, ImageOk, Linked, Fits, SaveHoldInvoice;
    var inv := NewInvoice(r.prepayHash, r.prepay, r.prepaySat, r.now);
    NewInvoiceFits(env, w, s.mem, r.prepayHash, inv);
    SaveStage(env, w, s, r, 2, r.prepayHash, inv, consolidate);
  }

  lemma {:induction false} CreateStagesOk(env: Env, w: World, s: State, r: Request, n: nat, consolidate: bool)
    requires WorldOk(env, w) && StageOk(env, w, s, r, 0) && Placed(w, r) && Unfunded(w, r)
    requires n <= CreateLimit(r)
    ensures StageOk(env, w, CreateStages(s, r, n, consolidate), r, n)
  {
    hide WorldOk, Good, Write, SaveHoldInvoice, SetSwap, SetPreimage, Placed, Unfunded;
    if n > 0 {
      CreateStagesOk(env, w, s, r, n - 1, consolidate);
      var s' := CreateStages(s, r, n - 1, consolidate);
      if n == 1 {
        MainStage(env, w, s', r, 0, None, consolidate);
      } else if n == 2 {
        PreimageStage(env, w, s', r, consolidate);
      } else if n == 3 {
        PrepayStage(env, w, s', r, consolidate);
      } else if n == 4 {
        MainStage(env, w, s', r, 3, Some(r.prepayHash), consolidate);
      } else {
        SwapStage(env, w, s', r);
        GoodIgnoresTables(env, w, SetSwap(s', r.paymentHash, NewSwap(r)), s'.creating + {r.paymentHash});
      }
    }
  }

  lemma GoodIgnoresTables(env: Env, w: World, s: State, creating: set<Hash>)
    requires Good(env, w, s)
    ensures Good(env, w, s.(creating := creating))
  {
    hide ImageOk;
  }

  /** No image and no funding of before knows the hashes of a new request. */
  lemma FreshIsUnseen(env: Env, w: World, s: State, r: Request, fees: Fees.Schedule)
    requires WorldOk(env, w) && ImageOk(env, w, s.mem) && Fresh(w, r)
    ensures r.paymentHash !in s.mem.swaps && r.prepayHash !in s.mem.swaps
    ensures Unfunded(AfterCreate(w, r, fees), r)
  {
    assert forall k :: k in s.mem.swaps ==> SwapOk(env, w, k, s.mem.swaps[k]);
    forall f | f in w.fundings
      ensures && f in w.used && f in w.terms && f != r.paymentHash && w.terms[f].request.prepayHash in w.used
    {
      assert FundedOk(env, w, s.mem, f);
      assert TermsOk(env, w, f) && PrepaymentOk(w, w.terms[f].request.prepayHash);
    }
  }

  lemma CreateGood(
    env: Env, w: World, s: State, r: Request, fees: Fees.Schedule, h: nat, n: nat, consolidate: bool)
    requires WorldOk(env, w) && Good(env, w, s) && GoodRequest(env, w, r, fees, h) && n <= CreateLimit(r)
    ensures WorldOk(env, AfterCreate(w, r, fees))
    ensures Good(env, AfterCreate(w, r, fees), CreateStages(s, r, n, consolidate))
    ensures r.paymentHash !in s.mem.swaps
  {
    hide WorldOk, ImageOk, Linked, Later, GoodRequest, Unfunded, Placed, CreateStages;
    var w' := AfterCreate(w, r, fees);
    GoodRequestIsFresh(env, w, r, fees, h);
    AfterCreateLater(env, w, r, fees);
    AfterCreateWorldOk(env, w, r, fees, h);
    LaterGood(env, w, w', s);
    FreshIsUnseen(env, w, s, r, fees);
    RequestIsPlaced(env, w', r);
    CreateStagesOk(env, w', s, r, n, consolidate);
  }

  /** The tables during creation. */
  lemma {:induction false} CreateStagesTables(s: State, r: Request, n: nat, consolidate: bool)
    requires n <= CreateLimit(r)
    ensures var s' := CreateStages(s, r, n, consolidate);
            && s'.callbacks == s.callbacks && s'.sweep == s.sweep && s'.watching == s.watching
            && (n < 5 ==> s'.creating == s.creating && s'.mem.swaps == s.mem.swaps)
            && (n == 5 ==> s'.creating == s.creating + {r.paymentHash}
                           && s'.mem.swaps == s.mem.swaps[r.paymentHash := NewSwap(r)])
  {
    if n > 0 {
      CreateStagesTables(s, r, n - 1, consolidate);
    }
  }

  // ---- Restarting ----

  lemma RestartGood(env: Env, w: World, s: State)
    requires Good(env, w, s)
    ensures Good(env, w, Restart(s))
  {
    FewerSwapsOk(env, w, s.disk, Restart(s).mem);
  }

  lemma RestartTables(env: Env, w: World, s: State)
    requires ImageOk(env, w, s.disk)
    ensures TablesOk(w, Restart(s))
  {
    forall k | k in Restart(s).callbacks ensures k in w.used {
      assert SwapOk(env, w, k, s.disk.swaps[k]);
    }
  }
}
