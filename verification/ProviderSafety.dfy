/** Every step of a run keeps the invariant, and what that means for the provider's money. */
module ProviderSafety {
  import opened Common
  import opened Invoices
  import opened LockScript
  import opened Provider
  import opened ProviderRuns
  import opened ProviderInvariant
  import opened ProviderSteps
  import opened ProviderSettles
  import opened ProviderClaims
  import opened ProviderCreates

  // ---- Worlds that grew ----

  /** A world with the same terms and fundings, and at least as much history, that is in order where it is new. */
  predicate Grown(env: Env, w: World, w': World)
  {
    && w'.terms == w.terms && w'.prepayments == w.prepayments && w'.fundings == w.fundings
    && w'.arrivals == w.arrivals
    && w.used <= w'.used && w.height <= w'.height
    && LockupsOk(env, w') && w'.lockups.Keys <= w'.used && w'.resolved <= w'.used
    && (forall k :: k in w.terms && Claimed(env, w, k) ==> Claimed(env, w', k))
    && (forall k :: k in w'.resolved && k in w'.terms ==> Claimed(env, w', k))
    && (forall r :: r in w'.refunds ==> RefundOk(w', r))
    && (forall k :: k in w.reversals ==> k in w'.reversals && w'.reversals[k] == w.reversals[k])
    && w'.reversals.Keys <= w'.used && (forall k :: k in w'.reversals ==> ReversalOk(env, k, w'.reversals[k]))
    && (forall r :: r in w'.claims ==> ReverseClaimOk(env, w', r))
  }

  lemma GrownWorldOk(env: Env, w: World, w': World)
    requires WorldOk(env, w) && Grown(env, w, w')
    ensures WorldOk(env, w')
  {
    forall k | k in w'.terms ensures TermsOk(env, w', k) {
      assert TermsOk(env, w, k);
    }
    forall q | q in w'.prepayments ensures PrepaymentOk(w', q) {
      assert PrepaymentOk(w, q);
    }
  }

  lemma GrownLater(env: Env, w: World, w': World)
    requires Grown(env, w, w')
    ensures Later(env, w, w')
  {
  }

  lemma GrownGood(env: Env, w: World, w': World, s: State)
    requires WorldOk(env, w) && Good(env, w, s) && Grown(env, w, w')
    ensures WorldOk(env, w') && Good(env, w', s)
  {
    hide WorldOk, Good, Grown, Later;
    GrownWorldOk(env, w, w');
    GrownLater(env, w, w');
    LaterGood(env, w, w', s);
  }

  /** The same lockup outputs, and more of the rest. */
  lemma SameLockupsGrown(env: Env, w: World, w': World)
    requires WorldOk(env, w)
    requires w'.terms == w.terms && w'.prepayments == w.prepayments && w'.fundings == w.fundings
    requires w'.arrivals == w.arrivals && w'.lockups == w.lockups
    requires w.used <= w'.used && w.height <= w'.height && w'.resolved <= w'.used
    requires forall k :: k in w'.resolved && k !in w.resolved && k in w.terms ==> Claimed(env, w, k)
    requires forall r :: r in w'.refunds && r !in w.refunds ==> RefundOk(w, r)
    requires forall k :: k in w.reversals ==> k in w'.reversals && w'.reversals[k] == w.reversals[k]
    requires w'.reversals.Keys <= w'.used
    requires forall k :: k in w'.reversals && k !in w.reversals ==> ReversalOk(env, k, w'.reversals[k])
    requires forall r :: r in w'.claims && r !in w.claims ==> ReverseClaimOk(env, w, r)
    ensures Grown(env, w, w')
  {
    forall k | k in w.terms ensures Claimed(env, w', k) <==> Claimed(env, w, k) {
      SameLockupsSameClaim(env, w, w', k);
    }
    hide Claimed;
    forall r | r in w'.refunds ensures RefundOk(w', r) {
      assert RefundOk(w, r);
    }
    forall r | r in w'.claims ensures ReverseClaimOk(env, w', r) {
      assert ReverseClaimOk(env, w, r);
    }
    assert LockupsOk(env, w') by {
      assert forall k :: k in w.terms ==> SwapLock(w', k) == SwapLock(w, k);
    }
  }

  // ---- Lockup outputs ----

  /** The outputs of before are still there, and what spent one still spends it, up to its height. */
  predicate OutputsMoveOn(a: seq<Txo>, b: seq<Txo>)
  {
    && |a| <= |b|
    && (forall i :: 0 <= i < |a| ==> b[i].txid == a[i].txid && b[i].value == a[i].value)
    && forall i :: 0 <= i < |a| && a[i].spent.Some? ==>
         b[i].spent.Some? && b[i].spent.value.inputs == a[i].spent.value.inputs
  }

  predicate OutputsOk(env: Env, lock: Lock, outputs: seq<Txo>)
  {
    forall i :: 0 <= i < |outputs| ==> SpentProperly(env, lock, outputs[i])
  }

  function Outputs(w: World, k: Hash): seq<Txo>
  {
    if k in w.lockups then w.lockups[k] else []
  }

  lemma StillClaimed(env: Env, w: World, w': World, k: Hash)
    requires k in w.terms && k in w'.terms && SwapLock(w', k) == SwapLock(w, k)
    requires Claimed(env, w, k) && k in w'.lockups && OutputsMoveOn(w.lockups[k], w'.lockups[k])
    ensures Claimed(env, w', k)
  {
    var lock := SwapLock(w, k);
    var i :| 0 <= i < |w.lockups[k]| && w.lockups[k][i].spent.Some?
        && ClaimsLockup(env, lock, w.lockups[k][i].spent.value);
    assert ClaimsLockup(env, lock, w'.lockups[k][i].spent.value) by {
      var j :| 0 <= j < |w.lockups[k][i].spent.value.inputs|
          && IsClaimInput(env, lock, w.lockups[k][i].spent.value.inputs[j]);
      assert IsClaimInput(env, lock, w'.lockups[k][i].spent.value.inputs[j]);
    }
  }

  lemma StillHolds(a: seq<Txo>, b: seq<Txo>, txo: Txo)
    requires OutputsMoveOn(a, b) && Holds(a, txo)
    ensures Holds(b, txo)
  {
    var i :| 0 <= i < |a| && a[i].txid == txo.txid && a[i].value == txo.value;
    assert b[i].txid == txo.txid && b[i].value == txo.value;
  }

  lemma ClaimsStillHold(env: Env, w: World, k: Hash, outputs: seq<Txo>)
    requires WorldOk(env, w) && OutputsMoveOn(Outputs(w, k), outputs)
    ensures forall r :: r in w.claims ==> ReverseClaimOk(env, w.(lockups := w.lockups[k := outputs]), r)
  {
    hide LockupsOk, TermsOk, PrepaymentOk, Claimed, OutputsMoveOn, Holds;
    forall r | r in w.claims ensures ReverseClaimOk(env, w.(lockups := w.lockups[k := outputs]), r) {
      assert ReverseClaimOk(env, w, r);
      if r.hash == k {
        StillHolds(w.lockups[k], outputs, r.output);
      }
    }
  }

  lemma ClaimsStay(env: Env, w: World, k: Hash, outputs: seq<Txo>)
    requires OutputsMoveOn(Outputs(w, k), outputs)
    ensures var w' := w.(lockups := w.lockups[k := outputs]);
            forall t :: t in w.terms && Claimed(env, w, t) ==> Claimed(env, w', t)
  {
    var w' := w.(lockups := w.lockups[k := outputs]);
    forall t | t in w.terms && Claimed(env, w, t) ensures Claimed(env, w', t) {
      assert OutputsMoveOn(w.lockups[t], w'.lockups[t]);
      StillClaimed(env, w, w', t);
    }
  }

  lemma LockupsStayOk(env: Env, w: World, k: Hash, outputs: seq<Txo>)
    requires LockupsOk(env, w) && (k in w.terms ==> OutputsOk(env, SwapLock(w, k), outputs))
    ensures LockupsOk(env, w.(lockups := w.lockups[k := outputs]))
  {
    hide ClaimsLockup, IsProviderRefund;
  }

  lemma LockupsGrown(env: Env, w: World, k: Hash, outputs: seq<Txo>)
    requires WorldOk(env, w) && k in w.used
    requires OutputsMoveOn(Outputs(w, k), outputs)
    requires k in w.terms ==> OutputsOk(env, SwapLock(w, k), outputs)
    ensures Grown(env, w, w.(lockups := w.lockups[k := outputs]))
  {
    var w' := w.(lockups := w.lockups[k := outputs]);
    ClaimsStay(env, w, k, outputs);
    LockupsStayOk(env, w, k, outputs);
    ClaimsStillHold(env, w, k, outputs);
    hide Claimed, TermsOk, PrepaymentOk, LockupsOk, ReverseClaimOk, OutputsOk, OutputsMoveOn;
    forall r | r in w'.refunds ensures RefundOk(w', r) {
      assert RefundOk(w, r);
    }
    hide RefundOk;
  }

  /** Whatever is accepted by the lock script either takes the hash branch or is the provider's refund. */
  lemma SpendIsProper(env: Env, w: World, s: State, k: Hash, i: nat, tx: SpendTx, wit: seq<Bytes>, ctx: Context)
    requires WorldOk(env, w) && Enabled(env, w, s, SpendLockup(k, i, tx, wit, ctx))
    ensures ClaimsLockup(env, SwapLock(w, k), tx) || IsProviderRefund(tx)
  {
    var lock := SwapLock(w, k);
    assert TermsOk(env, w, k);
    hide WorldOk;
    SpendsIffClaimOrRefund(lock, wit, ctx);
    if ClaimSpend(lock, wit, ctx) {
      var input := Input(wit + [LockBytes(lock).value]);
      assert IsClaimInput(env, lock, input);
      var j :| 0 <= j < |tx.inputs| && tx.inputs[j] == input;
      assert IsClaimInput(env, lock, tx.inputs[j]);
    }
  }

  lemma OutputsAreOk(env: Env, w: World, k: Hash)
    requires WorldOk(env, w) && k in w.terms
    ensures OutputsOk(env, SwapLock(w, k), Outputs(w, k))
  {
    hide ClaimsLockup, TermsOk;
  }

  lemma DepositGrown(env: Env, w: World, k: Hash, txo: Txo)
    requires WorldOk(env, w) && k in w.used && txo.spent.None?
    ensures Grown(env, w, w.(lockups := w.lockups[k := Outputs(w, k) + [txo]]))
  {
    hide WorldOk, Grown;
    if k in w.terms {
      OutputsAreOk(env, w, k);
      assert OutputsOk(env, SwapLock(w, k), Outputs(w, k) + [txo]);
    }
    LockupsGrown(env, w, k, Outputs(w, k) + [txo]);
  }

  lemma SpenderGrown(env: Env, w: World, k: Hash, i: nat, tx: SpendTx)
    requires WorldOk(env, w) && k in w.lockups && i < |w.lockups[k]|
    requires w.lockups[k][i].spent.Some? ==> w.lockups[k][i].spent.value.inputs == tx.inputs
    requires k in w.terms ==> ClaimsLockup(env, SwapLock(w, k), tx) || IsProviderRefund(tx)
    ensures Grown(env, w, w.(lockups := w.lockups[k := w.lockups[k][i := w.lockups[k][i].(spent := Some(tx))]]))
  {
    assert k in w.used;
    hide WorldOk, Grown, ClaimsLockup;
    var outputs := w.lockups[k][i := w.lockups[k][i].(spent := Some(tx))];
    if k in w.terms {
      OutputsAreOk(env, w, k);
      assert forall j :: 0 <= j < |outputs| && j != i ==> outputs[j] == Outputs(w, k)[j];
      assert OutputsOk(env, SwapLock(w, k), outputs);
    }
    LockupsGrown(env, w, k, outputs);
  }

  lemma SameInputsSameSpend(env: Env, lock: Lock, a: SpendTx, b: SpendTx)
    requires a.inputs == b.inputs
    ensures ClaimsLockup(env, lock, a) <==> ClaimsLockup(env, lock, b)
    ensures IsProviderRefund(a) <==> IsProviderRefund(b)
  {
  }

  lemma ConfirmGrown(env: Env, w: World, k: Hash, i: nat, height: nat)
    requires WorldOk(env, w) && k in w.lockups && i < |w.lockups[k]| && w.lockups[k][i].spent.Some?
    ensures var tx := w.lockups[k][i].spent.value.(height := height);
            Grown(env, w, w.(lockups := w.lockups[k := w.lockups[k][i := w.lockups[k][i].(spent := Some(tx))]]))
  {
    hide WorldOk, Grown, ClaimsLockup;
    var tx := w.lockups[k][i].spent.value.(height := height);
    if k in w.terms {
      OutputsAreOk(env, w, k);
      assert SpentProperly(env, SwapLock(w, k), Outputs(w, k)[i]);
      SameInputsSameSpend(env, SwapLock(w, k), w.lockups[k][i].spent.value, tx);
    }
    SpenderGrown(env, w, k, i, tx);
  }

  lemma ChainStepGrown(env: Env, w: World, s: State, st: Step)
    requires WorldOk(env, w) && Enabled(env, w, s, st)
    requires st.NewBlock? || st.Deposit? || st.SpendLockup? || st.ConfirmSpend?
    ensures Grown(env, w, Next(env, w, s, st).0)
  {
    hide Grown, ClaimsLockup, IsProviderRefund;
    match st {
      case NewBlock =>
        HigherGrown(env, w);
      case Deposit(k, txid, value) =>
        hide WorldOk;
        DepositGrown(env, w, k, Txo(txid, value, None));
      case SpendLockup(k, i, tx, wit, ctx) =>
        hide WorldOk;
        SpendIsProper(env, w, s, k, i, tx, wit, ctx);
        SpenderGrown(env, w, k, i, tx);
      case ConfirmSpend(k, i, height) =>
        hide WorldOk;
        ConfirmGrown(env, w, k, i, height);
    }
  }

  lemma HigherGrown(env: Env, w: World)
    requires WorldOk(env, w)
    ensures Grown(env, w, w.(height := w.height + 1))
  {
    assert w.resolved <= w.used;
    hide WorldOk, Grown;
    SameLockupsGrown(env, w, w.(height := w.height + 1));
  }

  // ---- The provider's own steps ----

  lemma FailSwapTables(w: World, s: State, k: Hash, swap: Swap, consolidate: bool)
    requires TablesOk(w, s) && k !in s.creating
    ensures var s' := FailSwap(s, k, swap, consolidate).0;
            TablesOk(w, s') && s'.callbacks == s.callbacks && s'.sweep == s.sweep && s'.creating == s.creating
  {
  }

  lemma SetSwapTables(w: World, s: State, k: Hash, swap: Swap)
    requires TablesOk(w, s)
    ensures TablesOk(w, SetSwap(s, k, swap))
  {
  }

  lemma HoldInvoiceCallbackTables(w: World, s: State, k: Hash, f: FundingResult, consolidate: bool)
    requires TablesOk(w, s) && k !in s.creating
    ensures var s' := HoldInvoiceCallback(s, k, f, consolidate).state;
            TablesOk(w, s') && s'.callbacks == s.callbacks && s'.sweep == s.sweep && s'.creating == s.creating
  {
    hide TablesOk, FailSwap;
    if k in s.mem.swaps && s.mem.swaps[k].fundingTxid.None? {
      var swap := s.mem.swaps[k];
      match f {
        case CreateRaises =>
        case NoTransaction => FailSwapTables(w, s, k, swap, consolidate);
        case SendFails(txid) =>
          var swap' := swap.(fundingTxid := Some(txid));
          SetSwapTables(w, s, k, swap');
          FailSwapTables(w, SetSwap(s, k, swap'), k, swap', consolidate);
        case Sent(txid) => SetSwapTables(w, s, k, swap.(fundingTxid := Some(txid)));
      }
    }
  }

  lemma SettlePrepayTables(w: World, s: State, k: Hash, sha256: Bytes -> Bytes, consolidate: bool)
    requires TablesOk(w, s) && k in s.mem.invoices
    ensures var s' := SettlePrepay(s, k, sha256, consolidate).state;
            && TablesOk(w, s') && s'.mem.swaps == s.mem.swaps && s'.creating == s.creating
  {
    hide Settle;
  }

  lemma FinishTables(w: World, s: State, k: Hash, sha256: Bytes -> Bytes, consolidate: bool)
    requires TablesOk(w, s) && k in s.mem.swaps && k !in s.creating
    ensures TablesOk(w, FinishNormalSwap(s, k, sha256, consolidate).0)
  {
    hide Settle;
  }

  lemma SignClaimTables(w: World, s: State, k: Hash, o: Observation, txo: Txo, locktime: int, revealed: Bytes)
    requires TablesOk(w, s) && k in s.mem.swaps
    ensures TablesOk(w, SignClaim(s, k, o, txo, locktime, revealed).state)
  {
  }

  lemma ClaimNormalTables(
    w: World, s: State, k: Hash, o: Observation, txo: Txo, sha256: Bytes -> Bytes, consolidate: bool)
    requires TablesOk(w, s) && k in s.mem.swaps && k !in s.creating
    ensures TablesOk(w, ClaimNormal(s, k, o, txo, sha256, consolidate).state)
  {
    hide TablesOk, FinishNormalSwap, FailSwap, SignClaim;
    var swap := s.mem.swaps[k];
    SignClaimTables(w, s, k, o, txo, swap.lock.locktime, []);
    if swap.preimage.None? && txo.spent.Some? {
      match FindPreimage(txo.spent.value.inputs, k, sha256) {
        case IndexError =>
        case Found(p) =>
          SetSwapTables(w, s, k, swap.(preimage := Some(p)));
          FinishTables(w, SetSwap(s, k, swap.(preimage := Some(p))), k, sha256, consolidate);
        case Missing =>
          var swap' := swap.(isRedeemed := true);
          SetSwapTables(w, s, k, swap');
          FailSwapTables(w, SetSwap(s, k, swap'), k, swap', consolidate);
      }
    }
  }

  lemma ClaimReverseTables(w: World, s: State, k: Hash, o: Observation, txo: Txo, sha256: Bytes -> Bytes)
    requires TablesOk(w, s) && k in s.mem.swaps
    ensures TablesOk(w, ClaimReverse(s, k, o, txo, sha256).state)
  {
    hide TablesOk, SignClaim;
    var swap := s.mem.swaps[k];
    if swap.preimage.Some? {
      SignClaimTables(w, s, k, o, txo, 0, swap.preimage.value);
    } else if k in s.mem.preimages {
      var p := s.mem.preimages[k];
      SetSwapTables(w, s, k, swap.(preimage := Some(p)));
      SignClaimTables(w, SetSwap(s, k, swap.(preimage := Some(p))), k, o, txo, 0, p);
    } else {
      TablesIgnoreToPay(w, s, s.toPay - {k});
      TablesIgnoreToPay(w, s, s.toPay[k := 0]);
    }
  }

  lemma TablesIgnoreToPay(w: World, s: State, toPay: map<Hash, int>)
    requires TablesOk(w, s)
    ensures TablesOk(w, s.(toPay := toPay))
  {
  }

  lemma DeleteFinishedTables(w: World, s: State, k: Hash, consolidate: bool)
    requires TablesOk(w, s) && k !in s.creating
    ensures TablesOk(w, DeleteFinished(s, k, consolidate))
  {
  }

  lemma ClaimTables(w: World, s: State, k: Hash, o: Observation, sha256: Bytes -> Bytes, consolidate: bool)
    requires TablesOk(w, s) && k in s.mem.swaps && k !in s.creating
    ensures TablesOk(w, ClaimSwap(s, k, o, sha256, consolidate).state)
  {
    hide TablesOk, FirstUsable, ClaimReverse, ClaimNormal, FailSwap, DeleteFinished;
    var swap := s.mem.swaps[k];
    match FirstUsable(swap, o.txos) {
      case None => FailSwapTables(w, s, k, swap, consolidate);
      case Some(txo) =>
        var s1 := SetSwap(s, k, Observed(swap, txo));
        var s2 := SetSwap(s1, k, Observed(swap, txo).(isRedeemed := true));
        SetSwapTables(w, s, k, Observed(swap, txo));
        SetSwapTables(w, s1, k, Observed(swap, txo).(isRedeemed := true));
        DeleteFinishedTables(w, s2, k, consolidate);
        ClaimReverseTables(w, s1, k, o, txo, sha256);
        ClaimNormalTables(w, s1, k, o, txo, sha256, consolidate);
    }
  }

  lemma ToldGrown(env: Env, w: World, k: Hash, after: Option<InvoiceRecord>)
    requires WorldOk(env, w)
    ensures Grown(env, w, Told(w, k, after)) && WorldOk(env, Told(w, k, after))
  {
    assert w.resolved <= w.used && w.reversals.Keys <= w.used;
    hide WorldOk, Grown, AnswersOf;
    SameLockupsGrown(env, w, Told(w, k, after));
    GrownWorldOk(env, w, Told(w, k, after));
  }

  lemma ResolvedGrown(env: Env, w: World, q: Hash)
    requires WorldOk(env, w) && q in w.used && (q in w.terms ==> Claimed(env, w, q))
    ensures Grown(env, w, w.(resolved := w.resolved + {q}))
  {
    assert w.resolved <= w.used;
    hide WorldOk, Grown, Claimed, RefundOk;
    SameLockupsGrown(env, w, w.(resolved := w.resolved + {q}));
  }

  lemma AfterSettleGrown(env: Env, w: World, s: State, q: Hash, settled: Option<InvoiceRecord>)
    requires WorldOk(env, w)
    requires settled.Some? ==> q in w.used && (q in w.terms ==> Claimed(env, w, q))
    ensures Grown(env, w, AfterSettle(w, s, q, settled))
  {
    hide WorldOk, Grown, Claimed, Reveals, AnswersOf;
    var w1 := Told(w, q, settled);
    ToldGrown(env, w, q, settled);
    if settled.Some? && w1 != AfterSettle(w, s, q, settled) {
      SameClaim(env, w, w1, q);
      ResolvedGrown(env, w1, q);
      GrownTwice(env, w, w1, AfterSettle(w, s, q, settled));
    }
  }

  lemma SameClaim(env: Env, w: World, w': World, k: Hash)
    requires w'.terms == w.terms && w'.lockups == w.lockups
    ensures k in w.terms ==> (Claimed(env, w', k) <==> Claimed(env, w, k))
  {
    if k in w.terms {
      SameLockupsSameClaim(env, w, w', k);
    }
  }

  lemma GrownTwice(env: Env, w: World, w1: World, w2: World)
    requires Grown(env, w, w1) && Grown(env, w1, w2)
    ensures Grown(env, w, w2)
  {
    hide Claimed, RefundOk, ReverseClaimOk, ReversalOk, LockupsOk;
  }

  /** Only a prepay invoice is settled by a turn. */
  lemma SettledByTurn(env: Env, w: World, s: State, k: Hash, settled: Option<InvoiceRecord>)
    requires WorldOk(env, w) && Good(env, w, s) && k in s.mem.invoices
    requires settled.Some? ==> s.mem.invoices[k].associated.Some?
    ensures Grown(env, w, AfterSettle(w, s, PrepayOf(s, k), settled))
  {
    hide Grown, Claimed, ImageOk, Linked, AfterSettle;
    if settled.Some? {
      AssociatedIsPrepay(env, w, s.mem, k);
      assert PrepaymentOk(w, PrepayOf(s, k));
    }
    AfterSettleGrown(env, w, s, PrepayOf(s, k), settled);
  }

  /** A swap that still has to be funded, whose prepay invoice is funded, was never funded. */
  lemma FundedOnce(env: Env, w: World, s: State, k: Hash)
    requires WorldOk(env, w) && Good(env, w, s) && k in s.mem.swaps && k in s.mem.invoices
    ensures s.mem.invoices[k].associated.Some?
    ensures k in w.terms && s.mem.invoices[k].associated.value == w.terms[k].request.prepayHash
    ensures var q := s.mem.invoices[k].associated.value;
            q in s.mem.invoices && s.mem.invoices[q].status.FUNDED? ==> k !in w.fundings
  {
    assert SwapOk(env, w, k, s.mem.swaps[k]);
    assert InvoiceOk(env, w, k, s.mem.invoices[k]);
    assert CrossOk(s.mem.invoices[k], s.mem.swaps[k]);
    assert k in w.fundings ==> FundedOk(env, w, s.mem, k);
  }

  lemma AttemptNeedsSwap(s: State, k: Hash, f: FundingResult, consolidate: bool)
    requires HoldInvoiceCallback(s, k, f, consolidate).attempted
    ensures k in s.mem.swaps
  {
  }

  lemma SettledNeedsPrepay(s: State, k: Hash, sha256: Bytes -> Bytes, consolidate: bool)
    requires k in s.mem.invoices
    ensures SettlePrepay(s, k, sha256, consolidate).settled.Some? ==> s.mem.invoices[k].associated.Some?
  {
  }

  lemma SettlePrepayKeepsSwaps(s: State, k: Hash, sha256: Bytes -> Bytes, consolidate: bool)
    requires k in s.mem.invoices
    ensures SettlePrepay(s, k, sha256, consolidate).state.mem.swaps == s.mem.swaps
  {
    hide Settle;
  }

  lemma GoodIgnoresCallbacks(env: Env, w: World, s: State, callbacks: set<Hash>, sweep: set<Hash>)
    requires Good(env, w, s)
    ensures Good(env, w, s.(callbacks := callbacks, sweep := sweep))
  {
    hide ImageOk;
  }

  /** A turn that gets to the funding transaction. */
  lemma FundingTurnGood(
    env: Env, w: World, s: State, k: Hash, f: FundingResult, consolidate: bool, consolidateOnFail: bool)
    requires WorldOk(env, w) && Good(env, w, s) && k in s.mem.invoices && s.mem.invoices[k].status.FUNDED?
    requires SettlePrepay(s, k, env.sha256, consolidate).proceed
    ensures var p := SettlePrepay(s, k, env.sha256, consolidate);
            var r := HoldInvoiceCallback(p.state, k, f, consolidateOnFail);
            var w1 := AfterSettle(w, s, PrepayOf(s, k), p.settled);
            var w2 := if r.attempted then w1.(fundings := w1.fundings + [k]) else w1;
            WorldOk(env, w2) && Good(env, w2, r.state)
  {
    hide WorldOk, Good, SettlePrepay, HoldInvoiceCallback, Grown, PrepaySettled, AfterSettle;
    var p := SettlePrepay(s, k, env.sha256, consolidate);
    SettlePrepayGood(env, w, s, k, consolidate);
    SettledNeedsPrepay(s, k, env.sha256, consolidate);
    SettledByTurn(env, w, s, k, p.settled);
    var w1 := AfterSettle(w, s, PrepayOf(s, k), p.settled);
    GrownGood(env, w, w1, p.state);
    var r := HoldInvoiceCallback(p.state, k, f, consolidateOnFail);
    HoldInvoiceCallbackGood(env, w1, p.state, k, f, consolidateOnFail);
    if r.attempted {
      AttemptNeedsSwap(p.state, k, f, consolidateOnFail);
      SettlePrepayKeepsSwaps(s, k, env.sha256, consolidate);
      FundedOnce(env, w, s, k);
      SettlePrepayResult(env, w, s, k, consolidate);
      AfterSettleKeepsTerms(w, s, PrepayOf(s, k), p.settled);
      FundingRecorded(env, w1, r.state, k);
    }
  }

  lemma AfterSettleKeepsTerms(w: World, s: State, q: Hash, settled: Option<InvoiceRecord>)
    ensures var w1 := AfterSettle(w, s, q, settled);
            && w1.terms == w.terms && w1.fundings == w.fundings && w1.used == w.used
            && w1.reversals == w.reversals && w1.lockups == w.lockups && w1.prepayments == w.prepayments
            && w1.claims == w.claims && w1.refunds == w.refunds && w1.arrivals == w.arrivals && w.answers <= w1.answers
  {
  }

  // ---- Every step keeps the invariant ----

  lemma TurnTables(
    env: Env, w: World, s: State, k: Hash, f: FundingResult, consolidate: bool, consolidateOnFail: bool)
    requires TablesOk(w, s) && k in s.sweep
    ensures var t := CallbackTurn(s, k, f, env.sha256, consolidate, consolidateOnFail);
            TablesOk(w, t.state.(sweep := if t.outcome.Raised? then {} else t.state.sweep - {k}))
  {
    hide SettlePrepay, HoldInvoiceCallback;
    if k in s.mem.invoices {
      SettlePrepayTables(w, s, k, env.sha256, consolidate);
      var p := SettlePrepay(s, k, env.sha256, consolidate);
      HoldInvoiceCallbackTables(w, p.state, k, f, consolidateOnFail);
    }
  }

  lemma TablesIgnoreHistory(w: World, w': World, s: State)
    requires TablesOk(w, s) && w.used <= w'.used
    ensures TablesOk(w', s)
  {
  }

  /** A turn that settles the prepay invoice, or tries to. */
  lemma SettlingTurnGood(env: Env, w: World, s: State, st: Step)
    requires Inv(env, w, s) && Enabled(env, w, s, st) && st.TurnStep?
    requires st.k in s.mem.invoices && s.mem.invoices[st.k].status.FUNDED?
    ensures var (w', s') := Next(env, w, s, st); WorldOk(env, w') && Good(env, w', s')
  {
    hide WorldOk, Good, TablesOk, SettlePrepay, HoldInvoiceCallback, AfterSettle, Grown;
    var k := st.k;
    var (w', s') := Next(env, w, s, st);
    var p := SettlePrepay(s, k, env.sha256, st.consolidate);
    if p.proceed {
      FundingTurnGood(env, w, s, k, st.f, st.consolidate, st.consolidateOnFail);
      var r := HoldInvoiceCallback(p.state, k, st.f, st.consolidateOnFail);
      GoodIgnoresCallbacks(env, w', r.state, s'.callbacks, s'.sweep);
    } else {
      SettlePrepayGood(env, w, s, k, st.consolidate);
      SettledNeedsPrepay(s, k, env.sha256, st.consolidate);
      SettledByTurn(env, w, s, k, p.settled);
      GrownGood(env, w, w', p.state);
      GoodIgnoresCallbacks(env, w', p.state, s'.callbacks, s'.sweep);
    }
  }

  lemma IdleTurnGood(env: Env, w: World, s: State, st: Step)
    requires Inv(env, w, s) && Enabled(env, w, s, st) && st.TurnStep?
    requires !(st.k in s.mem.invoices && s.mem.invoices[st.k].status.FUNDED?)
    ensures var (w', s') := Next(env, w, s, st); WorldOk(env, w') && Good(env, w', s')
  {
    hide WorldOk, Good, TablesOk, SettlePrepay, HoldInvoiceCallback, AfterSettle;
    var (w', s') := Next(env, w, s, st);
    GoodIgnoresCallbacks(env, w, s, s'.callbacks, s'.sweep);
    UnsettledUnchanged(w, s, PrepayOf(s, st.k));
  }

  lemma TurnTablesOk(env: Env, w: World, s: State, st: Step)
    requires TablesOk(w, s) && Enabled(env, w, s, st) && st.TurnStep?
    ensures var (w', s') := Next(env, w, s, st); TablesOk(w', s')
  {
    hide TablesOk, CallbackTurn, AfterSettle;
    var t := CallbackTurn(s, st.k, st.f, env.sha256, st.consolidate, st.consolidateOnFail);
    TurnTables(env, w, s, st.k, st.f, st.consolidate, st.consolidateOnFail);
    AfterSettleKeepsTerms(w, s, PrepayOf(s, st.k), t.settled);
    var (w', s') := Next(env, w, s, st);
    TablesIgnoreHistory(w, w', s');
  }

  lemma TurnInv(env: Env, w: World, s: State, st: Step)
    requires Inv(env, w, s) && Enabled(env, w, s, st) && st.TurnStep?
    ensures var (w', s') := Next(env, w, s, st); Inv(env, w', s')
  {
    hide WorldOk, Good, TablesOk, Next, Enabled;
    TurnTablesOk(env, w, s, st);
    if st.k in s.mem.invoices && s.mem.invoices[st.k].status.FUNDED? {
      SettlingTurnGood(env, w, s, st);
    } else {
      IdleTurnGood(env, w, s, st);
    }
  }

  lemma UnsettledUnchanged(w: World, s: State, q: Hash)
    ensures AfterSettle(w, s, q, None) == w
  {
  }

  lemma CreateInv(env: Env, w: World, s: State, st: Step)
    requires Inv(env, w, s) && Enabled(env, w, s, st) && (st.Create? || st.CreateInterrupted?)
    ensures var (w', s') := Next(env, w, s, st); Inv(env, w', s')
  {
    hide WorldOk, Good, GoodRequest, CreateStages, Restart;
    var n := if st.Create? then CreateLimit(st.r) else st.stages;
    var w' := AfterCreate(w, st.r, st.fees);
    var created := CreateStages(s, st.r, n, st.consolidate);
    CreateGood(env, w, s, st.r, st.fees, st.startHeight, n, st.consolidate);
    if st.Create? {
      CreateTables(env, w, s, st.r, st.fees, st.startHeight, n, st.consolidate);
    } else {
      RestartInv(env, w', created);
    }
  }

  lemma CreateTables(
    env: Env, w: World, s: State, r: Request, fees: Fees.Schedule, h: nat, n: nat, consolidate: bool)
    requires TablesOk(w, s) && GoodRequest(env, w, r, fees, h) && n <= CreateLimit(r) && r.paymentHash !in s.mem.swaps
    ensures TablesOk(AfterCreate(w, r, fees), CreateStages(s, r, n, consolidate))
  {
    assert r.paymentHash !in w.used;
    hide GoodRequest, CreateStages;
    CreateStagesTables(s, r, n, consolidate);
  }

  lemma RestartInv(env: Env, w: World, s: State)
    requires WorldOk(env, w) && Good(env, w, s)
    ensures Inv(env, w, Restart(s))
  {
    RestartGood(env, w, s);
    hide WorldOk, ImageOk, Linked, Restart;
    RestartTables(env, w, s);
  }

  lemma RegisterInv(env: Env, w: World, s: State, k: Hash)
    requires Inv(env, w, s) && k in s.creating
    ensures Inv(env, w, RegisterSwap(s, k))
  {
    hide WorldOk, Good;
    RegisteredIsUsed(env, w, s, k);
    GoodIgnoresWatching(env, w, s, s.watching + {k});
    GoodIgnoresCallbacks(env, w, s.(watching := s.watching + {k}), s.callbacks + {k}, s.sweep);
    GoodIgnoresTables(env, w, s.(watching := s.watching + {k}, callbacks := s.callbacks + {k}), s.creating - {k});
  }

  lemma RegisteredIsUsed(env: Env, w: World, s: State, k: Hash)
    requires Inv(env, w, s) && k in s.creating
    ensures k in w.used && k in s.mem.swaps
  {
    hide WorldOk, ImageOk, Linked;
    SwapIsUsed(env, w, s.mem, k);
  }

  lemma SwapIsUsed(env: Env, w: World, im: Image, k: Hash)
    requires ImageOk(env, w, im) && k in im.swaps
    ensures k in w.used
  {
    assert SwapOk(env, w, k, im.swaps[k]);
  }

  lemma CreateRevInv(env: Env, w: World, s: State, k: Hash, lock: Lock, onchain: int, lightning: int, preimage: Bytes)
    requires Inv(env, w, s) && k !in w.used && lock.Valid() && lock.hash == env.ripemd(k)
             && IsPreimage(env, k, preimage)
    ensures Inv(env, w.(used := w.used + {k}, reversals := w.reversals[k := Reversal(lock, onchain)]),
                CreateReverse(s, k, lock, onchain, lightning, preimage))
  {
    hide Good, WorldOk;
    var w' := w.(used := w.used + {k}, reversals := w.reversals[k := Reversal(lock, onchain)]);
    UnusedIsUnknown(env, w, s, k);
    ReversalGrown(env, w, k, lock, onchain);
    hide Grown;
    GrownGood(env, w, w', s);
    var swap := Swap(true, lock, onchain, lightning, Some(preimage), None, None, None, false);
    SetSwapGood(env, w', s, k, swap);
    GoodIgnoresWatching(env, w', SetSwap(s, k, swap), s.watching + {k});
  }

  lemma UnusedIsUnknown(env: Env, w: World, s: State, k: Hash)
    requires Inv(env, w, s) && k !in w.used
    ensures k !in w.terms && k !in w.prepayments
    ensures k !in s.mem.invoices && k !in s.mem.swaps && k !in s.mem.preimages
  {
    assert k in w.terms ==> TermsOk(env, w, k);
    assert k in w.prepayments ==> PrepaymentOk(w, k);
    assert k in s.mem.swaps ==> SwapOk(env, w, k, s.mem.swaps[k]);
    forall h | h in s.mem.invoices ensures h in w.used {
      InvoiceHashIsUsed(env, w, h, s.mem.invoices[h]);
    }
  }

  lemma ReversalGrown(env: Env, w: World, k: Hash, lock: Lock, onchain: int)
    requires WorldOk(env, w) && k !in w.used && ReversalOk(env, k, Reversal(lock, onchain))
    ensures Grown(env, w, w.(used := w.used + {k}, reversals := w.reversals[k := Reversal(lock, onchain)]))
  {
    assert w.resolved <= w.used && w.reversals.Keys <= w.used;
    hide WorldOk, Grown;
    SameLockupsGrown(env, w, w.(used := w.used + {k}, reversals := w.reversals[k := Reversal(lock, onchain)]));
  }

  lemma GoodIgnoresWatching(env: Env, w: World, s: State, watching: set<Hash>)
    requires Good(env, w, s)
    ensures Good(env, w, s.(watching := watching))
  {
    hide ImageOk;
  }

  lemma HtlcInv(env: Env, w: World, s: State, st: Step)
    requires Inv(env, w, s) && Enabled(env, w, s, st) && st.HtlcStep?
    ensures var (w', s') := Next(env, w, s, st); Inv(env, w', s')
  {
    hide WorldOk, Good, TablesOk, HtlcAccepted, FindHtlc, Grown, Told;
    HtlcGood(env, w, s, st.k, st.inc, st.expiry, st.decodeOk, st.now, st.consolidate);
    HtlcTables(w, s, st.k, st.inc, st.decodeOk, st.now, st.consolidate);
    var s' := HtlcAccepted(s, st.k, st.inc, st.decodeOk, st.now, st.consolidate);
    var isNew := st.k in s.mem.invoices && FindHtlc(s.mem.invoices[st.k].htlcs, FromCln(st.inc, st.now)).None?;
    var w1 := if isNew then Arrived(w, st.k, st.inc, st.expiry, st.decodeOk) else w;
    ToldGood(env, w1, st.k, LiveAt(s', st.k), s');
    ToldTables(w1, st.k, LiveAt(s', st.k), s');
  }

  lemma ToldGood(env: Env, w: World, k: Hash, after: Option<InvoiceRecord>, s: State)
    requires WorldOk(env, w) && Good(env, w, s)
    ensures WorldOk(env, Told(w, k, after)) && Good(env, Told(w, k, after), s)
  {
    hide WorldOk, Good, Grown, Told;
    ToldGrown(env, w, k, after);
    GrownGood(env, w, Told(w, k, after), s);
  }

  lemma ToldTables(w: World, k: Hash, after: Option<InvoiceRecord>, s: State)
    requires TablesOk(w, s)
    ensures TablesOk(Told(w, k, after), s)
  {
  }

  lemma HtlcTables(w: World, s: State, k: Hash, inc: Incoming, decodeOk: bool, now: int, consolidate: bool)
    requires TablesOk(w, s)
    ensures TablesOk(w, HtlcAccepted(s, k, inc, decodeOk, now, consolidate))
  {
  }

  lemma ExpiryInv(env: Env, w: World, s: State, k: Hash, now: int, consolidate: bool)
    requires Inv(env, w, s)
    ensures var e := CheckInvoiceExpiry(s, k, now, consolidate);
            Inv(env, Told(w, k, e.cancelled), e.state)
  {
    hide WorldOk, Good, CancelAll, Told;
    ExpiryGood(env, w, s, k, now, consolidate);
    var e := CheckInvoiceExpiry(s, k, now, consolidate);
    hide TablesOk, CheckInvoiceExpiry;
    assert TablesOk(w, e.state) by {
      ExpiryTables(w, s, k, now, consolidate);
    }
    ToldGood(env, w, k, e.cancelled, e.state);
    ToldTables(w, k, e.cancelled, e.state);
  }

  lemma ExpiryTables(w: World, s: State, k: Hash, now: int, consolidate: bool)
    requires TablesOk(w, s)
    ensures TablesOk(w, CheckInvoiceExpiry(s, k, now, consolidate).state)
  {
    hide CancelAll;
  }

  /** The process dies after the HTLCs of the prepay invoice were answered, before or after that is saved. */
  lemma TurnInterruptedInv(env: Env, w: World, s: State, k: Hash, consolidate: bool)
    requires Inv(env, w, s) && k in s.mem.invoices && s.mem.invoices[k].status.FUNDED?
    ensures var p := SettlePrepay(s, k, env.sha256, consolidate);
            var w' := AfterSettle(w, s, PrepayOf(s, k), p.settled);
            Inv(env, w', Restart(p.state)) && Inv(env, w', Restart(s))
  {
    hide WorldOk, Good, SettlePrepay, Restart, AfterSettle, TablesOk, Grown;
    var p := SettlePrepay(s, k, env.sha256, consolidate);
    SettlePrepayGood(env, w, s, k, consolidate);
    SettledNeedsPrepay(s, k, env.sha256, consolidate);
    SettledByTurn(env, w, s, k, p.settled);
    var w' := AfterSettle(w, s, PrepayOf(s, k), p.settled);
    GrownGood(env, w, w', p.state);
    GrownGood(env, w, w', s);
    RestartInv(env, w', p.state);
    RestartInv(env, w', s);
  }

  // ---- The claim step ----

  lemma ReverseClaimGrown(env: Env, w: World, r: ReverseClaim)
    requires WorldOk(env, w) && ReverseClaimOk(env, w, r)
    ensures Grown(env, w, w.(claims := w.claims + [r]))
  {
    assert w.resolved <= w.used && w.reversals.Keys <= w.used;
    hide WorldOk, Grown;
    SameLockupsGrown(env, w, w.(claims := w.claims + [r]));
  }

  lemma BroadcastClaimOk(env: Env, w: World, s: State, k: Hash, o: Observation, consolidate: bool)
    requires ImageOk(env, w, s.mem) && Observable(w, s, k, o) && s.mem.swaps[k].isReverse
    requires ClaimSwap(s, k, o, env.sha256, consolidate).broadcast.Some?
    ensures var tx := ClaimSwap(s, k, o, env.sha256, consolidate).broadcast.value;
            ReverseClaimOk(env, w, ReverseClaim(k, tx.revealed, tx.spends, o.fundingConf))
  {
    hide ClaimSwap;
    BroadcastIsDue(s, k, o, env.sha256, consolidate);
    assert SwapOk(env, w, k, s.mem.swaps[k]);
    var txo := ClaimSwap(s, k, o, env.sha256, consolidate).broadcast.value.spends;
    var i :| 0 <= i < |w.lockups[k]| && w.lockups[k][i] == txo;
    assert Holds(w.lockups[k], txo);
  }

  lemma ReverseClaimKept(env: Env, w: World, w1: World, r: ReverseClaim)
    requires ReverseClaimOk(env, w, r) && w1.reversals == w.reversals && w1.lockups == w.lockups
    ensures ReverseClaimOk(env, w1, r)
  {
  }

  lemma RefundGrown(env: Env, w: World, r: Refund)
    requires WorldOk(env, w) && RefundOk(w, r)
    ensures Grown(env, w, w.(refunds := w.refunds + [r]))
  {
    assert w.resolved <= w.used && w.reversals.Keys <= w.used;
    hide WorldOk, Grown;
    SameLockupsGrown(env, w, w.(refunds := w.refunds + [r]));
  }

  lemma BroadcastRefundOk(env: Env, w: World, s: State, k: Hash, o: Observation, consolidate: bool)
    requires ImageOk(env, w, s.mem) && k in s.mem.swaps && !s.mem.swaps[k].isReverse
    requires ClaimSwap(s, k, o, env.sha256, consolidate).broadcast.Some?
    ensures var tx := ClaimSwap(s, k, o, env.sha256, consolidate).broadcast.value;
            RefundOk(w, Refund(k, o.height, s.mem.swaps[k].preimage, tx.spends, tx.locktime))
  {
    hide ClaimSwap;
    BroadcastIsDue(s, k, o, env.sha256, consolidate);
    assert SwapOk(env, w, k, s.mem.swaps[k]);
  }

  lemma SettleIsUsed(env: Env, w: World, k: Hash)
    requires WorldOk(env, w) && k in w.terms
    ensures k in w.used
  {
    assert TermsOk(env, w, k);
  }

  lemma RefundKept(w: World, w1: World, r: Refund)
    requires RefundOk(w, r) && w1.terms == w.terms
    ensures RefundOk(w1, r)
  {
  }

  /** What a run of _claim_swap gives away is covered, whatever is left of the provider's state. */
  lemma AfterClaimGood(env: Env, w: World, s: State, k: Hash, o: Observation, consolidate: bool, left: State)
    requires Inv(env, w, s) && Observable(w, s, k, o) && Good(env, w, left)
    ensures var w' := AfterClaim(env, w, s, k, o, consolidate);
            WorldOk(env, w') && Good(env, w', left) && w'.used == w.used
  {
    hide WorldOk, ClaimSwap, ImageOk, Linked, AfterSettle, Grown, RefundOk, ReverseClaimOk, Claimed;
    var r := ClaimSwap(s, k, o, env.sha256, consolidate);
    ghost var isNormal := !s.mem.swaps[k].isReverse;
    assert ImageOk(env, w, s.mem);
    hide Good, TablesOk;
    if r.settled.Some? {
      SettleMeansClaimed(env, w, s, k, o, consolidate);
      SettleIsUsed(env, w, k);
    }
    AfterSettleGrown(env, w, s, k, r.settled);
    var w1 := AfterSettle(w, s, k, r.settled);
    GrownGood(env, w, w1, left);
    AfterSettleKeepsTerms(w, s, k, r.settled);
    if r.broadcast.Some? && isNormal {
      var refund := Refund(k, o.height, s.mem.swaps[k].preimage, r.broadcast.value.spends, r.broadcast.value.locktime);
      BroadcastRefundOk(env, w, s, k, o, consolidate);
      RefundKept(w, w1, refund);
      RefundGrown(env, w1, refund);
      GrownGood(env, w1, w1.(refunds := w1.refunds + [refund]), left);
    } else if r.broadcast.Some? {
      var claim := ReverseClaim(k, r.broadcast.value.revealed, r.broadcast.value.spends, o.fundingConf);
      BroadcastClaimOk(env, w, s, k, o, consolidate);
      ReverseClaimKept(env, w, w1, claim);
      ReverseClaimGrown(env, w1, claim);
      GrownGood(env, w1, w1.(claims := w1.claims + [claim]), left);
    }
  }

  lemma ClaimInv(env: Env, w: World, s: State, k: Hash, o: Observation, consolidate: bool)
    requires Inv(env, w, s) && Observable(w, s, k, o)
    ensures Inv(env, AfterClaim(env, w, s, k, o, consolidate), ClaimSwap(s, k, o, env.sha256, consolidate).state)
  {
    hide WorldOk, ClaimSwap, AfterClaim, ImageOk, Linked;
    var r := ClaimSwap(s, k, o, env.sha256, consolidate);
    ClaimGood(env, w, s, k, o, consolidate);
    ClaimTables(w, s, k, o, env.sha256, consolidate);
    AfterClaimGood(env, w, s, k, o, consolidate, r.state);
    hide Good, TablesOk;
    TablesIgnoreHistory(w, AfterClaim(env, w, s, k, o, consolidate), r.state);
  }

  /** The process dies after the preimage or the refund went out and before anything is saved. */
  lemma ClaimInterruptedInv(env: Env, w: World, s: State, k: Hash, o: Observation, consolidate: bool)
    requires Inv(env, w, s) && Observable(w, s, k, o)
    ensures Inv(env, AfterClaim(env, w, s, k, o, consolidate), Restart(s))
  {
    hide WorldOk, Good, AfterClaim, Restart, TablesOk;
    AfterClaimGood(env, w, s, k, o, consolidate, s);
    RestartInv(env, AfterClaim(env, w, s, k, o, consolidate), s);
  }

  lemma ChainStepInv(env: Env, w: World, s: State, st: Step)
    requires Inv(env, w, s) && Enabled(env, w, s, st)
    requires st.NewBlock? || st.Deposit? || st.SpendLockup? || st.ConfirmSpend?
    ensures var (w', s') := Next(env, w, s, st); Inv(env, w', s')
  {
    hide WorldOk, Good, Grown;
    ChainStepGrown(env, w, s, st);
    GrownGood(env, w, Next(env, w, s, st).0, s);
    TablesIgnoreHistory(w, Next(env, w, s, st).0, s);
  }

  lemma SweepInv(env: Env, w: World, s: State)
    requires Inv(env, w, s)
    ensures Inv(env, w, s.(sweep := s.callbacks))
  {
    hide WorldOk, ImageOk;
  }

  // ---- History only grows ----

  predicate KeepsHistory(w: World, w': World)
  {
    && w.used <= w'.used && w.answers <= w'.answers && w.arrivals.Keys <= w'.arrivals.Keys
    && (forall k :: k in w.terms ==> k in w'.terms && w'.terms[k] == w.terms[k])
    && (forall q :: q in w.prepayments ==> q in w'.prepayments && w'.prepayments[q] == w.prepayments[q])
  }

  lemma CreateKeepsHistory(env: Env, w: World, r: Request, fees: Fees.Schedule, h: nat)
    requires WorldOk(env, w) && GoodRequest(env, w, r, fees, h)
    ensures KeepsHistory(w, AfterCreate(w, r, fees))
  {
    assert forall k :: k in w.terms ==> TermsOk(env, w, k);
    assert forall q :: q in w.prepayments ==> PrepaymentOk(w, q);
  }

  lemma SettleKeepsHistory(w: World, s: State, q: Hash, settled: Option<InvoiceRecord>)
    ensures KeepsHistory(w, AfterSettle(w, s, q, settled))
  {
    hide Reveals, AnswersOf;
  }

  lemma ClaimKeepsHistory(env: Env, w: World, s: State, k: Hash, o: Observation, consolidate: bool)
    requires k in s.mem.swaps
    ensures KeepsHistory(w, AfterClaim(env, w, s, k, o, consolidate))
  {
    hide ClaimSwap, AfterSettle;
    SettleKeepsHistory(w, s, k, ClaimSwap(s, k, o, env.sha256, consolidate).settled);
  }

  lemma ToldKeepsHistory(w: World, k: Hash, after: Option<InvoiceRecord>)
    ensures KeepsHistory(w, Told(w, k, after))
  {
    hide AnswersOf;
  }

  lemma ArrivalKeepsHistory(w: World, k: Hash, inc: Incoming, expiry: int, decodeOk: bool, after: Option<InvoiceRecord>)
    ensures KeepsHistory(w, Told(Arrived(w, k, inc, expiry, decodeOk), k, after))
  {
    hide AnswersOf;
  }

  /** What a step records is never taken back. */
  lemma StepKeepsHistory(env: Env, w: World, s: State, st: Step)
    requires WorldOk(env, w) && Enabled(env, w, s, st)
    ensures KeepsHistory(w, Next(env, w, s, st).0)
  {
    hide WorldOk, GoodRequest, LockBytes, Spends, RefundSpend, AfterSettle, AfterClaim, AfterCreate, Told,
         Arrived, FindHtlc, CreateStages, CallbackTurn, ClaimSwap, SettlePrepay, CheckInvoiceExpiry, HtlcAccepted,
         Restart, KeepsHistory;
    match st {
      case Create(r, fees, h, _) => CreateKeepsHistory(env, w, r, fees, h);
      case CreateInterrupted(r, fees, h, _, _) => CreateKeepsHistory(env, w, r, fees, h);
      case HtlcStep(k, inc, expiry, decodeOk, now, c) =>
        var after := LiveAt(HtlcAccepted(s, k, inc, decodeOk, now, c), k);
        ToldKeepsHistory(w, k, after);
        ArrivalKeepsHistory(w, k, inc, expiry, decodeOk, after);
      case TurnStep(k, f, c1, c2) => TurnKeepsHistory(env, w, s, st);
      case TurnInterrupted(k, _, c) =>
        SettleKeepsHistory(w, s, PrepayOf(s, k), SettlePrepay(s, k, env.sha256, c).settled);
      case ExpiryStep(k, now, c) =>
        ToldKeepsHistory(w, k, CheckInvoiceExpiry(s, k, now, c).cancelled);
      case ClaimStep(k, o, c) => ClaimKeepsHistory(env, w, s, k, o, c);
      case ClaimInterrupted(k, o, c) => ClaimKeepsHistory(env, w, s, k, o, c);
      case _ => OtherKeepsHistory(env, w, s, st);
    }
  }

  lemma TurnKeepsHistory(env: Env, w: World, s: State, st: Step)
    requires Enabled(env, w, s, st) && st.TurnStep?
    ensures KeepsHistory(w, Next(env, w, s, st).0)
  {
    hide AfterSettle, CallbackTurn;
    SettleKeepsHistory(w, s, PrepayOf(s, st.k),
                       CallbackTurn(s, st.k, st.f, env.sha256, st.consolidate, st.consolidateOnFail).settled);
  }

  lemma OtherKeepsHistory(env: Env, w: World, s: State, st: Step)
    requires Enabled(env, w, s, st)
    requires st.Register? || st.CreateRev? || st.StartSweep? || st.NewBlock? || st.Deposit? || st.SpendLockup?
             || st.ConfirmSpend? || st.Crash?
    ensures KeepsHistory(w, Next(env, w, s, st).0)
  {
    hide LockBytes, Spends, RefundSpend;
  }

  // ---- Every step ----

  /** Every step keeps the invariant. */
  lemma StepKeepsInv(env: Env, w: World, s: State, st: Step)
    requires Inv(env, w, s) && Enabled(env, w, s, st)
    ensures var (w', s') := Next(env, w, s, st); Inv(env, w', s')
  {
    match st {
      case Create(_, _, _, _) => CreateInv(env, w, s, st);
      case CreateInterrupted(_, _, _, _, _) => CreateInv(env, w, s, st);
      case Register(k) => RegisterInv(env, w, s, k);
      case CreateRev(k, lock, a, b, p) => CreateRevInv(env, w, s, k, lock, a, b, p);
      case HtlcStep(_, _, _, _, _, _) => HtlcInv(env, w, s, st);
      case StartSweep => SweepInv(env, w, s);
      case TurnStep(_, _, _, _) => TurnInv(env, w, s, st);
      case TurnInterrupted(k, _, c) => TurnInterruptedInv(env, w, s, k, c);
      case ExpiryStep(k, now, c) => ExpiryInv(env, w, s, k, now, c);
      case ClaimStep(k, o, c) => ClaimInv(env, w, s, k, o, c);
      case ClaimInterrupted(k, o, c) => ClaimInterruptedInv(env, w, s, k, o, c);
      case NewBlock => ChainStepInv(env, w, s, st);
      case Deposit(_, _, _) => ChainStepInv(env, w, s, st);
      case SpendLockup(_, _, _, _, _) => ChainStepInv(env, w, s, st);
      case ConfirmSpend(_, _, _) => ChainStepInv(env, w, s, st);
      case Crash => RestartInv(env, w, s);
    }
  }

  lemma {:induction false} RunKeepsInv(env: Env, w: World, s: State, steps: seq<Step>)
    requires Inv(env, w, s) && Possible(env, w, s, steps)
    ensures Inv(env, RunOf(env, w, s, steps).0, RunOf(env, w, s, steps).1)
    decreases |steps|
  {
    hide Inv, Next, Enabled;
    if steps != [] {
      StepKeepsInv(env, w, s, steps[0]);
      var (w', s') := Next(env, w, s, steps[0]);
      RunKeepsInv(env, w', s', steps[1..]);
    }
  }

  lemma InitialInv(env: Env, height: nat)
    ensures Inv(env, InitialWorld(height), INITIAL)
  {
  }

  /** A state of some run of a provider that started with an empty database. */
  ghost predicate Reachable(env: Env, w: World, s: State)
  {
    exists height: nat, steps: seq<Step> :: Reaches(env, height, steps, w, s)
  }

  ghost predicate Reaches(env: Env, height: nat, steps: seq<Step>, w: World, s: State)
  {
    Possible(env, InitialWorld(height), INITIAL, steps) && RunOf(env, InitialWorld(height), INITIAL, steps) == (w, s)
  }

  lemma ReachableInv(env: Env, w: World, s: State)
    requires Reachable(env, w, s)
    ensures Inv(env, w, s)
  {
    hide Inv, Possible, RunOf;
    var height: nat, steps: seq<Step> :| Reaches(env, height, steps, w, s);
    InitialInv(env, height);
    RunKeepsInv(env, InitialWorld(height), INITIAL, steps);
  }

  // ---- What it means ----

  /** Over whole runs, with crashes and interrupted turns anywhere, no swap's funding transaction is sent twice. */
  lemma AtMostOneFunding(env: Env, w: World, s: State, i: nat, j: nat)
    requires Reachable(env, w, s) && i < j < |w.fundings|
    ensures w.fundings[i] != w.fundings[j]
  {
    ReachableInv(env, w, s);
  }

  /** The value that may still be taken from the hold invoice plus what the prepay invoice has brought. */
  function CoverMsat(im: Image, k: Hash, q: Hash): nat
  {
    (if k in im.invoices then StateMsat(im.invoices[k].htlcs, Accepted) else 0)
    + (if q in im.invoices then StateMsat(im.invoices[q].htlcs, Settled) else 0)
  }

  /** Every HTLC of the hold invoice that can still be claimed outlives the swap's locktime by 74 blocks. */
  predicate Outlives(w: World, im: Image, k: Hash, locktime: int)
  {
    k in im.invoices ==> AllLateEnough(w, k, locktime, im.invoices[k].htlcs)
  }

  lemma PrepayBrings(env: Env, w: World, im: Image, q: Hash)
    requires q in im.invoices && InvoiceOk(env, w, q, im.invoices[q]) && im.invoices[q].status.SETTLED?
    requires q in w.prepayments && w.prepayments[q] in w.terms
    ensures StateMsat(im.invoices[q].htlcs, Settled) >= w.terms[w.prepayments[q]].request.prepaySat * 1000
  {
    SettledIsPaid(im.invoices[q]);
  }

  /** A funded hold invoice without settled HTLCs holds its whole amount in accepted HTLCs. */
  lemma MainHolds(env: Env, w: World, im: Image, k: Hash)
    requires k in im.invoices && InvoiceOk(env, w, k, im.invoices[k]) && im.invoices[k].status.FUNDED?
    requires k in w.terms && !Has(im.invoices[k].htlcs, Settled)
    ensures StateMsat(im.invoices[k].htlcs, Accepted) >= MainSat(w.terms[k].request) * 1000
  {
    StateMsatAbsent(im.invoices[k].htlcs, Settled);
  }

  /** No HTLC of the hold invoice is settled before the lockup output is claimed and the image knows the preimage. */
  lemma NothingSettledYet(env: Env, w: World, im: Image, k: Hash)
    requires ImageOk(env, w, im) && k in w.terms && k in im.invoices
    requires !Claimed(env, w, k) || Unrevealed(im.swaps, k)
    ensures !Has(im.invoices[k].htlcs, Settled)
  {
    assert InvoiceOk(env, w, k, im.invoices[k]);
    if k in im.swaps {
      assert SwapOk(env, w, k, im.swaps[k]) && CrossOk(im.invoices[k], im.swaps[k]);
    }
  }

  /** As long as the lockup output was not claimed, or it was but the image holds the swap without a preimage, whoever
      reads an image (the live tree, or the durable form after a crash) of a provider that sent the funding transaction
      of swap k finds it covered: accepted HTLCs of the hold invoice and settled HTLCs of the prepay invoice bring in
      the whole Lightning amount, which pays the on-chain amount and both fees, and each accepted HTLC outlives the
      locktime. */
  lemma ImageCovers(env: Env, w: World, im: Image, k: Hash)
    requires WorldOk(env, w) && ImageOk(env, w, im) && k in w.fundings
    ensures k in w.terms
    ensures !Claimed(env, w, k) || Unrevealed(im.swaps, k) ==>
              var t := w.terms[k];
              var r := t.request;
              && t.fees.Valid()
              && k in im.invoices && im.invoices[k].status.FUNDED?
              && CoverMsat(im, k, r.prepayHash) >= r.lightningSat * 1000
              && r.lightningSat == r.onchainSat + Fees.PercentageFee(t.fees, r.lightningSat) + t.fees.lockupFee
              && Outlives(w, im, k, r.lock.locktime)
  {
    assert FundedOk(env, w, im, k);
    if !Claimed(env, w, k) || Unrevealed(im.swaps, k) {
      var q := w.terms[k].request.prepayHash;
      assert TermsOk(env, w, k);
      assert InvoiceOk(env, w, q, im.invoices[q]) && InvoiceOk(env, w, k, im.invoices[k]);
      NothingSettledYet(env, w, im, k);
      hide WorldOk, ImageOk, Claimed, WellFormed;
      PrepayBrings(env, w, im, q);
      MainHolds(env, w, im, k);
    }
  }

  /** In every reachable state, for each image. */
  lemma FundingIsCovered(env: Env, w: World, s: State, k: Hash, im: Image)
    requires Reachable(env, w, s) && k in w.fundings && im in {s.mem, s.tracked, s.disk}
    ensures k in w.terms
    ensures !Claimed(env, w, k) || Unrevealed(im.swaps, k) ==>
              var t := w.terms[k];
              var r := t.request;
              && t.fees.Valid()
              && r.lightningSat == r.onchainSat + Fees.PercentageFee(t.fees, r.lightningSat) + t.fees.lockupFee
              && CoverMsat(im, k, r.prepayHash) >= r.lightningSat * 1000 && Outlives(w, im, k, r.lock.locktime)
  {
    ReachableInv(env, w, s);
    ImageCovers(env, w, im, k);
  }

  /** A swap whose funding was not sent has no settled HTLC, so a funded hold invoice holds it all. */
  lemma UnsentMainHolds(env: Env, w: World, im: Image, k: Hash)
    requires ImageOk(env, w, im) && k in im.swaps && k in im.invoices && k in w.terms
    requires im.swaps[k].fundingTxid.None? && im.invoices[k].status.FUNDED?
    ensures StateMsat(im.invoices[k].htlcs, Accepted) >= MainSat(w.terms[k].request) * 1000
    ensures Outlives(w, im, k, w.terms[k].request.lock.locktime)
  {
    assert SwapOk(env, w, k, im.swaps[k]);
    assert CrossOk(im.invoices[k], im.swaps[k]);
    assert InvoiceOk(env, w, k, im.invoices[k]);
    StateMsatAbsent(im.invoices[k].htlcs, Settled);
  }

  /** What the turn that sends a funding transaction leaves behind. */
  lemma AttemptResult(
    env: Env, w: World, s: State, k: Hash, f: FundingResult, consolidate: bool, consolidateOnFail: bool)
    requires WorldOk(env, w) && Good(env, w, s)
    requires CallbackTurn(s, k, f, env.sha256, consolidate, consolidateOnFail).attempted
    ensures var s' := CallbackTurn(s, k, f, env.sha256, consolidate, consolidateOnFail).state;
            && k in s.mem.swaps && s.mem.swaps[k].fundingTxid.None? && k in w.terms
            && k in s.mem.invoices && s.mem.invoices[k].status.FUNDED?
            && k in s'.mem.invoices && s'.mem.invoices[k] == s.mem.invoices[k]
            && PrepaySettled(s', w.terms[k].request.prepayHash)
  {
    hide WorldOk, Good, SettlePrepay, HoldInvoiceCallback, PrepaySettled;
    var p := SettlePrepay(s, k, env.sha256, consolidate);
    SettlePrepayGood(env, w, s, k, consolidate);
    SettlePrepayKeepsSwaps(s, k, env.sha256, consolidate);
    HoldInvoiceCallbackGood(env, w, p.state, k, f, consolidateOnFail);
    FundedOnce(env, w, s, k);
    SettlePrepayResult(env, w, s, k, consolidate);
    TurnStateIs(s, k, f, env.sha256, consolidate, consolidateOnFail);
  }

  lemma TurnStateIs(
    s: State, k: Hash, f: FundingResult, sha256: Bytes -> Bytes, consolidate: bool, consolidateOnFail: bool)
    requires k in s.mem.invoices && SettlePrepay(s, k, sha256, consolidate).proceed && s.mem.invoices[k].status.FUNDED?
    ensures var r := HoldInvoiceCallback(SettlePrepay(s, k, sha256, consolidate).state, k, f, consolidateOnFail).state;
            var s' := CallbackTurn(s, k, f, sha256, consolidate, consolidateOnFail).state;
            && s'.mem == r.mem
            && forall q :: PrepaySettled(s', q) <==> PrepaySettled(r, q)
  {
    hide SettlePrepay, HoldInvoiceCallback;
  }

  /** In the very step that sends a funding transaction the swap is covered, claimed or not, and its prepay invoice is
      SETTLED in the live tree and in the form that a crash leaves. */
  lemma BroadcastIsCovered(env: Env, w: World, s: State, st: Step)
    requires Reachable(env, w, s) && Enabled(env, w, s, st) && st.TurnStep?
    requires CallbackTurn(s, st.k, st.f, env.sha256, st.consolidate, st.consolidateOnFail).attempted
    ensures var s' := Next(env, w, s, st).1;
            && st.k !in w.fundings && st.k in w.terms
            && var r := w.terms[st.k].request;
               && CoverMsat(s'.mem, st.k, r.prepayHash) >= r.lightningSat * 1000
               && Outlives(w, s'.mem, st.k, r.lock.locktime)
               && r.prepayHash in s'.disk.invoices && s'.disk.invoices[r.prepayHash].status.SETTLED?
  {
    var k := st.k;
    ReachableInv(env, w, s);
    TurnInv(env, w, s, st);
    hide CallbackTurn, WorldOk, ImageOk, Linked, WellFormed, TablesOk, Claimed;
    var (w', s') := Next(env, w, s, st);
    AttemptResult(env, w, s, k, st.f, st.consolidate, st.consolidateOnFail);
    UnsentMainHolds(env, w, s.mem, k);
    AfterSettleKeepsTerms(w, s, PrepayOf(s, k),
                          CallbackTurn(s, k, st.f, env.sha256, st.consolidate, st.consolidateOnFail).settled);
    var q := w.terms[k].request.prepayHash;
    InvoiceOfImage(env, w', s'.mem, q);
    RolesOf(env, w', k);
    PrepayBrings(env, w', s'.mem, q);
    LastIsNew(env, w', w.fundings, k);
  }

  lemma InvoiceOfImage(env: Env, w: World, im: Image, h: Hash)
    requires ImageOk(env, w, im) && h in im.invoices
    ensures InvoiceOk(env, w, h, im.invoices[h])
  {
  }

  lemma RolesOf(env: Env, w: World, k: Hash)
    requires WorldOk(env, w) && k in w.terms
    ensures var q := w.terms[k].request.prepayHash; q in w.prepayments && w.prepayments[q] == k
  {
    assert TermsOk(env, w, k);
  }

  lemma LastIsNew(env: Env, w: World, before: seq<Hash>, k: Hash)
    requires WorldOk(env, w) && w.fundings == before + [k]
    ensures k !in before
  {
    forall i | 0 <= i < |before| ensures before[i] != k {
      assert w.fundings[i] == before[i] && w.fundings[|before|] == k;
    }
  }

  /** The preimage of a hold invoice is handed to the Lightning node, and one of its HTLCs is settled in any image,
      only after the lockup output was spent through the hash branch. */
  lemma SettledOnlyAfterClaim(env: Env, w: World, s: State, k: Hash, im: Image)
    requires Reachable(env, w, s) && k in w.terms && im in {s.mem, s.tracked, s.disk}
    ensures k in w.resolved ==> Claimed(env, w, k)
    ensures k in im.invoices && (Has(im.invoices[k].htlcs, Settled) || im.invoices[k].status.SETTLED?) ==>
            Claimed(env, w, k)
  {
    ReachableInv(env, w, s);
    if k in im.invoices {
      assert InvoiceOk(env, w, k, im.invoices[k]);
      if im.invoices[k].status.SETTLED? {
        PaidHasSettled(im.invoices[k]);
      }
    }
  }

  lemma PaidHasSettled(inv: InvoiceRecord)
    requires WellFormed(inv) && inv.status.SETTLED?
    ensures Has(inv.htlcs, Settled)
  {
    SettledIsPaid(inv);
    if !Has(inv.htlcs, Settled) {
      StateMsatAbsent(inv.htlcs, Settled);
    }
  }

  /** A refund is broadcast only at or after the locktime, with no preimage known; it spends the lockup output with the
      provider's key, whatever the signature is. */
  lemma RefundsAreDue(env: Env, w: World, s: State, r: Refund, sig: Bytes, ctx: Context)
    requires Reachable(env, w, s) && r in w.refunds
    ensures r.hash in w.terms && r.height >= w.terms[r.hash].request.lock.locktime
    ensures r.preimage.Some? ==> r.preimage.value == []
    ensures r.output.spent.None? && 0 <= r.locktime
    ensures |sig| <= MAX_ELEMENT && r.locktime < 0x1_0000_0000
            && ctx.locktime == SignedLocktime(false, r.locktime) && ctx.sequence == RBF_SEQUENCE ==>
              var lock := SwapLock(w, r.hash);
              && LockBytes(lock).Ok?
              && (Spends(LockBytes(lock).value, SignedWitness(false, [], sig), ctx) <==>
                 ctx.checkSig(sig, lock.refundKey))
  {
    ReachableInv(env, w, s);
    assert RefundOk(w, r) && TermsOk(env, w, r.hash);
    hide WorldOk, Good, Reachable, Spends, LockBytes, SignedWitness;
    if |sig| <= MAX_ELEMENT && r.locktime < 0x1_0000_0000
       && ctx.locktime == SignedLocktime(false, r.locktime) && ctx.sequence == RBF_SEQUENCE {
      ProviderRefundSpends(SwapLock(w, r.hash), [], sig, ctx);
    }
  }

  /** A claim transaction for a reverse swap, and with it the preimage, is broadcast only against a lockup output that
      the backend reports as confirmed and unspent and that pays at least the amount the swap was created with; the
      output is on the chain. What it reveals is the preimage of the payment hash, and with a signature of the claim key
      it spends the lock that the swap was created with. */
  lemma ReverseClaimsAreCovered(env: Env, w: World, s: State, r: ReverseClaim, sig: Bytes, ctx: Context)
    requires Reachable(env, w, s) && r in w.claims
    ensures r.hash in w.reversals
    ensures r.fundingConf > 0 && r.output.spent.None? && r.output.value >= w.reversals[r.hash].onchainSat
    ensures r.hash in w.lockups && Holds(w.lockups[r.hash], r.output)
    ensures |r.preimage| == 32 && env.sha256(r.preimage) == r.hash
    ensures |sig| <= MAX_ELEMENT && ctx.locktime == 0 && (forall x :: ctx.hash160(x) == env.Hash160(x)) ==>
              var lock := w.reversals[r.hash].lock;
              && LockBytes(lock).Ok?
              && (Spends(LockBytes(lock).value, SignedWitness(true, r.preimage, sig), ctx)
                  <==> ctx.checkSig(sig, lock.claimKey))
  {
    ReachableInv(env, w, s);
    assert ReverseClaimOk(env, w, r) && ReversalOk(env, r.hash, w.reversals[r.hash]);
    hide WorldOk, Good, Reachable, Spends, LockBytes, SignedWitness;
    if |sig| <= MAX_ELEMENT && ctx.locktime == 0 && forall x :: ctx.hash160(x) == env.Hash160(x) {
      ProviderClaimSpends(w.reversals[r.hash].lock, r.preimage, sig, 0, ctx);
    }
  }

  lemma AfterClaimSends(env: Env, w: World, s: State, k: Hash, o: Observation, consolidate: bool)
    requires k in s.mem.swaps
    ensures var b := ClaimSwap(s, k, o, env.sha256, consolidate).broadcast;
            var isReverse := s.mem.swaps[k].isReverse;
            var w' := AfterClaim(env, w, s, k, o, consolidate);
            && w'.refunds == w.refunds
                 + (if b.Some? && !isReverse
                    then [Refund(k, o.height, s.mem.swaps[k].preimage, b.value.spends, b.value.locktime)] else [])
            && w'.claims == w.claims
                 + (if b.Some? && isReverse
                    then [ReverseClaim(k, b.value.revealed, b.value.spends, o.fundingConf)] else [])
  {
    hide ClaimSwap, AfterSettle;
    AfterSettleKeepsTerms(w, s, k, ClaimSwap(s, k, o, env.sha256, consolidate).settled);
  }

  /** In every reachable state, what a run of _claim_swap sends for the output it works on: for a reverse swap the claim
      with its preimage, whenever the output can be spent; for a normal one the refund, exactly when in addition the
      locktime is reached and no preimage is known; and nothing else. */
  lemma SentExactlyWhen(env: Env, w: World, s: State, k: Hash, o: Observation, consolidate: bool, i: int)
    requires Reachable(env, w, s) && Observable(w, s, k, o) && o.upToDate && UsableAt(s.mem.swaps[k], o.txos, i)
    ensures var swap, txo := s.mem.swaps[k], o.txos[i];
            var w' := Next(env, w, s, ClaimStep(k, o, consolidate)).0;
            if swap.isReverse then
              && w'.refunds == w.refunds && swap.preimage.Some?
              && w'.claims == w.claims + if Spendable(o, txo)
                                         then [ReverseClaim(k, swap.preimage.value, txo, o.fundingConf)] else []
            else
              && w'.claims == w.claims
              && w'.refunds == w.refunds + if Spendable(o, txo) && swap.lock.locktime <= o.height
                                              && (swap.preimage.None? || swap.preimage.value == [])
                                           then [Refund(k, o.height, swap.preimage, txo, swap.lock.locktime)] else []
  {
    hide WorldOk, ClaimSwap, AfterClaim, Reachable, TablesOk, UsableAt, Good;
    ReachableInv(env, w, s);
    if s.mem.swaps[k].isReverse {
      LiveHoldsPreimage(env, w, s, k);
    }
    BroadcastExactlyWhen(s, k, o, env.sha256, consolidate, i);
    AfterClaimSends(env, w, s, k, o, consolidate);
  }

  lemma LiveHoldsPreimage(env: Env, w: World, s: State, k: Hash)
    requires Good(env, w, s) && k in s.mem.swaps && s.mem.swaps[k].isReverse
    ensures s.mem.swaps[k].preimage.Some?
  {
    HoldsPreimage(env, w, s.mem, k);
  }

  /** And without an up-to-date backend, or an output that pays enough, it sends nothing. */
  lemma NothingSent(env: Env, w: World, s: State, k: Hash, o: Observation, consolidate: bool)
    requires Observable(w, s, k, o) && (o.upToDate ==> forall i :: !UsableAt(s.mem.swaps[k], o.txos, i))
    ensures var w' := Next(env, w, s, ClaimStep(k, o, consolidate)).0;
            w'.claims == w.claims && w'.refunds == w.refunds
  {
    hide ClaimSwap, UsableAt, AfterClaim;
    NothingToBroadcast(s, k, o, env.sha256, consolidate);
    AfterClaimSends(env, w, s, k, o, consolidate);
  }

  /** Every hold invoice of every image of a reachable state is well formed. */
  lemma ReachableInvoicesAreWellFormed(env: Env, w: World, s: State, im: Image, h: Hash)
    requires Reachable(env, w, s) && im in {s.mem, s.tracked, s.disk} && h in im.invoices
    ensures WellFormed(im.invoices[h])
    ensures im.invoices[h].status in {UNFUNDED, FUNDED} ==>
              (im.invoices[h].status.FUNDED? <==> CountedMsat(im.invoices[h].htlcs) >= im.invoices[h].amountMsat)
  {
    ReachableInv(env, w, s);
    assert InvoiceOk(env, w, h, im.invoices[h]);
  }
}
