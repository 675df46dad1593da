/** _claim_swap keeps the invariant: it settles only against a claimed lockup output, and refunds only when due. */
module ProviderClaims {
  import opened Common
  import opened Invoices
  import opened Provider
  import opened ProviderRuns
  import opened ProviderInvariant
  import opened ProviderSettles

  lemma MayDropClaimed(env: Env, w: World, swaps: map<Hash, Swap>, k: Hash)
    requires WorldOk(env, w) && k in w.terms && Claimed(env, w, k) && !Unrevealed(swaps, k)
    ensures MayDrop(env, w, swaps, k) && MayDrop(env, w, swaps, w.terms[k].request.prepayHash)
  {
    var q := w.terms[k].request.prepayHash;
    assert TermsOk(env, w, k) && PrepaymentOk(w, q);
    forall f | f in w.fundings && f in w.terms
      ensures k != w.terms[f].request.prepayHash
      ensures q != f && (q == w.terms[f].request.prepayHash ==> f == k)
    {
      assert TermsOk(env, w, f) && PrepaymentOk(w, w.terms[f].request.prepayHash);
    }
  }

  lemma PopPreimageHalf(env: Env, w: World, s: State, k: Hash)
    requires Half(env, w, s)
    ensures Half(env, w, PopPreimage(s, k))
  {
    FewerSwapsOk(env, w, s.mem, PopPreimage(s, k).mem);
    FewerSwapsOk(env, w, s.tracked, PopPreimage(s, k).tracked);
  }

  /** The clean-up of a finished swap. */
  lemma CleanUpGood(env: Env, w: World, s: State, k: Hash, prepayHash: Option<Hash>, consolidate: bool)
    requires Half(env, w, s) && MayDrop(env, w, s.mem.swaps, k)
    requires prepayHash.Some? ==> MayDrop(env, w, s.mem.swaps, prepayHash.value)
    ensures var s2 := DropHoldInvoice(s, k);
            var s3 := if prepayHash.Some? then DropHoldInvoice(s2, prepayHash.value) else s2;
            var s4 := PopPreimage(s3, k);
            Good(env, w, Write(PopSwap(s4.(watching := s4.watching - {k}), k), consolidate))
  {
    hide MayDrop, ImageOk, Write, PopPreimage, PopSwap;
    var s2 := DropHoldInvoice(s, k);
    assert s2.mem.swaps == s.mem.swaps;
    hide DropHoldInvoice;
    DropHoldInvoiceHalf(env, w, s, k);
    var s3 := if prepayHash.Some? then DropHoldInvoice(s2, prepayHash.value) else s2;
    if prepayHash.Some? {
      DropHoldInvoiceHalf(env, w, s2, prepayHash.value);
    }
    var s4 := PopPreimage(s3, k);
    PopPreimageHalf(env, w, s3, k);
    var s5 := s4.(watching := s4.watching - {k});
    PopSwapHalf(env, w, s5, k);
    WriteGood(env, w, PopSwap(s5, k), consolidate);
  }

  lemma SwapOfImage(env: Env, w: World, im: Image, k: Hash)
    requires ImageOk(env, w, im) && k in im.swaps && !im.swaps[k].isReverse
    ensures k in w.terms && im.swaps[k].prepayHash == Some(w.terms[k].request.prepayHash)
  {
    assert SwapOk(env, w, k, im.swaps[k]);
  }

  lemma TouchKeepsSwaps(s: State, k: Hash, inv: InvoiceRecord)
    ensures Touch(s, k, inv).mem.swaps == s.mem.swaps
  {
  }

  lemma FinishGood(env: Env, w: World, s: State, k: Hash, consolidate: bool)
    requires WorldOk(env, w) && Good(env, w, s) && k in s.mem.swaps && !s.mem.swaps[k].isReverse
    requires s.mem.swaps[k].preimage.Some? && s.mem.swaps[k].preimage.value != [] ==>
               k in w.terms && Claimed(env, w, k) && s.mem.swaps[k].fundingTxid.Some?
    ensures Good(env, w, FinishNormalSwap(s, k, env.sha256, consolidate).0)
  {
    hide ImageOk, WorldOk, Linked, Settle, Fits, MayDrop, DropHoldInvoice, PopPreimage, PopSwap, Write, Touch, Claimed;
    hide MovedOn, Derived;
    var swap := s.mem.swaps[k];
    SwapOfImage(env, w, s.mem, k);
    if swap.preimage.Some? && swap.preimage.value != [] && k in s.mem.invoices {
      var p := swap.preimage.value;
      var (inv, ok) := Settle(s.mem.invoices[k], p, env.sha256);
      SettledMainFits(env, w, s.mem, k, p);
      SettleDerives(s.mem.invoices[k], p, env.sha256);
      TouchGood(env, w, s, k, inv);
      if ok {
        MayDropClaimed(env, w, s.mem.swaps, k);
        TouchKeepsSwaps(s, k, inv);
        CleanUpGood(env, w, Touch(s, k, inv), k, swap.prepayHash, consolidate);
      }
    }
  }

  /** If the spender of a lockup output reveals a non-empty preimage in some input, it took the hash branch. */
  lemma FoundMeansClaimed(env: Env, w: World, k: Hash, txo: Txo)
    requires WorldOk(env, w) && k in w.terms && k in w.lockups && txo in w.lockups[k] && txo.spent.Some?
    requires FindPreimage(txo.spent.value.inputs, k, env.sha256).Found?
    requires FindPreimage(txo.spent.value.inputs, k, env.sha256).preimage != []
    ensures Claimed(env, w, k)
  {
    var i :| 0 <= i < |w.lockups[k]| && w.lockups[k][i] == txo;
    assert SpentProperly(env, SwapLock(w, k), w.lockups[k][i]);
  }

  lemma SignClaimGood(env: Env, w: World, s: State, k: Hash, o: Observation, txo: Txo, locktime: int, revealed: Bytes)
    requires Good(env, w, s) && k in s.mem.swaps
    ensures Good(env, w, SignClaim(s, k, o, txo, locktime, revealed).state)
  {
    hide Good;
    SetSwapMovesOn(env, w, s, k, s.mem.swaps[k].(spendingTxid := Some(o.claimTxid)));
  }

  /** A reverse swap always holds its preimage. */
  lemma HoldsPreimage(env: Env, w: World, im: Image, k: Hash)
    requires ImageOk(env, w, im) && k in im.swaps && im.swaps[k].isReverse
    ensures im.swaps[k].preimage.Some? && IsPreimage(env, k, im.swaps[k].preimage.value)
  {
    assert SwapOk(env, w, k, im.swaps[k]);
  }

  lemma ClaimReverseGood(env: Env, w: World, s: State, k: Hash, o: Observation, txo: Txo)
    requires Good(env, w, s) && k in s.mem.swaps && s.mem.swaps[k].isReverse
    ensures Good(env, w, ClaimReverse(s, k, o, txo, env.sha256).state)
  {
    HoldsPreimage(env, w, s.mem, k);
    hide ImageOk, SignClaim;
    SignClaimGood(env, w, s, k, o, txo, 0, s.mem.swaps[k].preimage.value);
  }

  lemma ClaimNormalGood(env: Env, w: World, s: State, k: Hash, o: Observation, txo: Txo, consolidate: bool)
    requires WorldOk(env, w) && Good(env, w, s) && k in s.mem.swaps && !s.mem.swaps[k].isReverse
    requires s.mem.swaps[k].fundingTxid.Some?
    requires k in w.terms && k in w.lockups && txo in w.lockups[k]
    ensures Good(env, w, ClaimNormal(s, k, o, txo, env.sha256, consolidate).state)
  {
    hide WorldOk, ImageOk, Linked, Claimed, SignClaim, FinishNormalSwap, FailSwap;
    var swap := s.mem.swaps[k];
    SignClaimGood(env, w, s, k, o, txo, swap.lock.locktime, []);
    if swap.preimage.None? && txo.spent.Some? {
      match FindPreimage(txo.spent.value.inputs, k, env.sha256) {
        case IndexError =>
        case Found(p) =>
          var swap' := swap.(preimage := Some(p));
          if p != [] {
            FoundMeansClaimed(env, w, k, txo);
          }
          SetSwapMovesOn(env, w, s, k, swap');
          FinishGood(env, w, SetSwap(s, k, swap'), k, consolidate);
        case Missing =>
          var swap' := swap.(isRedeemed := true);
          SetSwapMovesOn(env, w, s, k, swap');
          FailSwapGood(env, w, SetSwap(s, k, swap'), k, swap', consolidate);
      }
    }
  }

  lemma DeleteFinishedGood(env: Env, w: World, s: State, k: Hash, consolidate: bool)
    requires Good(env, w, s)
    ensures Good(env, w, DeleteFinished(s, k, consolidate))
  {
    var s' := s.(watching := s.watching - {k}, toPay := s.toPay - {k});
    PopSwapHalf(env, w, s', k);
    WriteGood(env, w, PopSwap(s', k), consolidate);
  }

  lemma ClaimFundedGood(env: Env, w: World, s: State, k: Hash, o: Observation, txo: Txo, consolidate: bool)
    requires WorldOk(env, w) && Good(env, w, s) && k in s.mem.swaps
    requires k in w.lockups && txo in w.lockups[k]
    ensures Good(env, w, ClaimFunded(s, k, o, txo, env.sha256, consolidate).state)
  {
    assert SwapOk(env, w, k, s.mem.swaps[k]);
    hide WorldOk, Good, ClaimReverse, ClaimNormal, DeleteFinished;
    var swap := Observed(s.mem.swaps[k], txo);
    var s1 := SetSwap(s, k, swap);
    SetSwapMovesOn(env, w, s, k, swap);
    var swap' := swap.(isRedeemed := true);
    SetSwapMovesOn(env, w, s1, k, swap');
    DeleteFinishedGood(env, w, SetSwap(s1, k, swap'), k, consolidate);
    if swap.isReverse {
      ClaimReverseGood(env, w, s1, k, o, txo);
    } else {
      ClaimNormalGood(env, w, s1, k, o, txo, consolidate);
    }
  }

  lemma FirstUsableIsThere(swap: Swap, txos: seq<Txo>)
    ensures FirstUsable(swap, txos).Some? ==>
              var t := FirstUsable(swap, txos).value;
              t in txos && (swap.isReverse ==> t.value >= swap.onchainAmount)
  {
  }

  lemma ClaimGood(env: Env, w: World, s: State, k: Hash, o: Observation, consolidate: bool)
    requires WorldOk(env, w) && Good(env, w, s) && k in s.mem.swaps
    requires k in w.lockups ==> forall i :: 0 <= i < |o.txos| ==> o.txos[i] in w.lockups[k]
    requires k !in w.lockups ==> o.txos == []
    ensures Good(env, w, ClaimSwap(s, k, o, env.sha256, consolidate).state)
  {
    hide WorldOk, Good, ClaimFunded, FailSwap;
    var swap := s.mem.swaps[k];
    FirstUsableIsThere(swap, o.txos);
    match FirstUsable(swap, o.txos) {
      case None => FailSwapGood(env, w, s, k, swap, consolidate);
      case Some(txo) => ClaimFundedGood(env, w, s, k, o, txo, consolidate);
    }
  }

  // ---- What a claim tells ----

  /** _claim_swap tries to settle the hold invoice only with a non-empty preimage from the spender's witness. */
  lemma SettleMeansFound(s: State, k: Hash, o: Observation, sha256: Bytes -> Bytes, consolidate: bool)
    requires k in s.mem.swaps && ClaimSwap(s, k, o, sha256, consolidate).settled.Some?
    ensures !s.mem.swaps[k].isReverse
    ensures FirstUsable(s.mem.swaps[k], o.txos).Some?
    ensures var txo := FirstUsable(s.mem.swaps[k], o.txos).value;
            && txo.spent.Some?
            && FindPreimage(txo.spent.value.inputs, k, sha256).Found?
            && FindPreimage(txo.spent.value.inputs, k, sha256).preimage != []
  {
    hide Settle, FindPreimage, FirstUsable;
  }

  /** _claim_swap tries to settle the hold invoice only when the lockup output was claimed. */
  lemma SettleMeansClaimed(env: Env, w: World, s: State, k: Hash, o: Observation, consolidate: bool)
    requires WorldOk(env, w) && ImageOk(env, w, s.mem) && k in s.mem.swaps
    requires k in w.lockups ==> forall i :: 0 <= i < |o.txos| ==> o.txos[i] in w.lockups[k]
    requires k !in w.lockups ==> o.txos == []
    requires ClaimSwap(s, k, o, env.sha256, consolidate).settled.Some?
    ensures k in w.terms && Claimed(env, w, k)
  {
    SettleMeansFound(s, k, o, env.sha256, consolidate);
    assert SwapOk(env, w, k, s.mem.swaps[k]);
    hide WorldOk, ImageOk, ClaimSwap, FirstUsable, FindPreimage;
    FirstUsableIsThere(s.mem.swaps[k], o.txos);
    FoundMeansClaimed(env, w, k, FirstUsable(s.mem.swaps[k], o.txos).value);
  }

  /** Output i is the one that _claim_swap works on: the first, or for a reverse swap the first that pays enough. */
  predicate UsableAt(swap: Swap, txos: seq<Txo>, i: int)
  {
    && 0 <= i < |txos| && (swap.isReverse ==> txos[i].value >= swap.onchainAmount)
    && forall j :: 0 <= j < i ==> swap.isReverse && txos[j].value < swap.onchainAmount
  }

  lemma {:induction false} FirstUsableIs(swap: Swap, txos: seq<Txo>)
    ensures forall i :: UsableAt(swap, txos, i) ==> FirstUsable(swap, txos) == Some(txos[i])
    ensures FirstUsable(swap, txos).Some? ==> exists i :: UsableAt(swap, txos, i)
  {
    if txos != [] {
      FirstUsableIs(swap, txos[1..]);
      if swap.isReverse && txos[0].value < swap.onchainAmount {
        forall i | UsableAt(swap, txos, i) ensures FirstUsable(swap, txos) == Some(txos[i]) {
          assert UsableAt(swap, txos[1..], i - 1);
        }
        if FirstUsable(swap, txos).Some? {
          var i :| UsableAt(swap, txos[1..], i);
          assert UsableAt(swap, txos, i + 1);
        }
      } else {
        assert UsableAt(swap, txos, 0);
      }
    }
  }

  /** The output can be spent now, and it is worth it. */
  predicate Spendable(o: Observation, txo: Txo)
  {
    txo.spent.None? && o.fundingConf > 0 && txo.value - o.claimFee >= 546
  }

  /** The provider may take the output: it holds the preimage of a reverse swap, or the locktime of a normal one is
      reached and no preimage is known. */
  predicate MayTake(s: State, k: Hash, o: Observation, sha256: Bytes -> Bytes)
    requires k in s.mem.swaps
  {
    var swap := s.mem.swaps[k];
    if swap.isReverse then swap.preimage.Some? || (k in s.mem.preimages && sha256(s.mem.preimages[k]) == k)
    else swap.lock.locktime <= o.height && (swap.preimage.None? || swap.preimage.value == [])
  }

  /** A transaction is broadcast if and only if the usable output can be spent and the provider may take it; what it
      spends, its locktime, and what it reveals. */
  lemma BroadcastExactlyWhen(
    s: State, k: Hash, o: Observation, sha256: Bytes -> Bytes, consolidate: bool, i: int)
    requires k in s.mem.swaps && o.upToDate && UsableAt(s.mem.swaps[k], o.txos, i)
    ensures var swap := s.mem.swaps[k];
            var b := ClaimSwap(s, k, o, sha256, consolidate).broadcast;
            && (b.Some? <==> Spendable(o, o.txos[i]) && MayTake(s, k, o, sha256))
            && (b.Some? ==>
                  && b.value.spends == o.txos[i] && b.value.amount == o.txos[i].value - o.claimFee
                  && b.value.locktime == (if swap.isReverse then 0 else swap.lock.locktime)
                  && b.value.revealed == if !swap.isReverse then []
                                         else if swap.preimage.Some? then swap.preimage.value
                                         else s.mem.preimages[k])
  {
    FirstUsableIs(s.mem.swaps[k], o.txos);
    hide FirstUsable, FindPreimage, FailSwap, FinishNormalSwap, UsableAt, DeleteFinished;
  }

  /** Without an up-to-date backend or a usable output nothing is broadcast. */
  lemma NothingToBroadcast(s: State, k: Hash, o: Observation, sha256: Bytes -> Bytes, consolidate: bool)
    requires k in s.mem.swaps && (o.upToDate ==> forall i :: !UsableAt(s.mem.swaps[k], o.txos, i))
    ensures ClaimSwap(s, k, o, sha256, consolidate).broadcast.None?
  {
    FirstUsableIs(s.mem.swaps[k], o.txos);
  }

  /** A refund is broadcast only for an unspent output, at or after the locktime, and with no preimage known; a claim
      only for an output that pays enough. Both need a confirmed funding transaction. */
  lemma BroadcastIsDue(s: State, k: Hash, o: Observation, sha256: Bytes -> Bytes, consolidate: bool)
    requires k in s.mem.swaps
    requires ClaimSwap(s, k, o, sha256, consolidate).broadcast.Some?
    ensures var swap := s.mem.swaps[k];
            var tx := ClaimSwap(s, k, o, sha256, consolidate).broadcast.value;
            && tx.spends in o.txos && tx.spends.spent.None? && o.fundingConf > 0
            && tx.amount == tx.spends.value - o.claimFee >= DUST_THRESHOLD
            && (if swap.isReverse then
                  && tx.spends.value >= swap.onchainAmount && tx.locktime == 0
                  && (swap.preimage.Some? ==> tx.revealed == swap.preimage.value)
                else
                  && swap.lock.locktime <= o.height && tx.locktime == swap.lock.locktime && tx.revealed == []
                  && (swap.preimage.Some? ==> swap.preimage.value == []))
  {
    var swap := s.mem.swaps[k];
    if !o.upToDate || !(exists i :: UsableAt(swap, o.txos, i)) {
      NothingToBroadcast(s, k, o, sha256, consolidate);
    } else {
      var i :| UsableAt(swap, o.txos, i);
      hide ClaimSwap;
      BroadcastExactlyWhen(s, k, o, sha256, consolidate, i);
    }
  }

  /** Without every request attached the step raises; the swap keeps the preimage and the invoice its status. */
  lemma DetachedClaimOnlyKeepsPreimage(
    s: State, k: Hash, o: Observation, txo: Txo, p: Bytes, sha256: Bytes -> Bytes, consolidate: bool)
    requires k in s.mem.swaps && !s.mem.swaps[k].isReverse && s.mem.swaps[k].preimage.None?
    requires o.upToDate && o.txos != [] && o.txos[0] == txo && txo.spent.Some?
    requires txo.spent.value.height == 0 || o.height - txo.spent.value.height <= REDEEM_AFTER_DOUBLE_SPENT_DELAY
    requires FindPreimage(txo.spent.value.inputs, k, sha256) == Found(p)
    requires k in s.mem.invoices && !AllAttached(s.mem.invoices[k].htlcs)
    ensures var r := ClaimSwap(s, k, o, sha256, consolidate);
            && r.outcome.Raised?
            && k in r.state.mem.swaps && r.state.mem.swaps[k].preimage == Some(p)
            && k in r.state.mem.invoices && r.state.mem.invoices[k].status == s.mem.invoices[k].status
            && k in r.state.tracked.swaps && r.state.tracked.swaps[k].preimage == Some(p)
            && r.state.tracked.invoices == s.tracked.invoices
  {
    SettleDerives(s.mem.invoices[k], p, sha256);
    var s1 := SetSwap(s, k, Observed(s.mem.swaps[k], txo));
    var s2 := SetSwap(s1, k, s1.mem.swaps[k].(preimage := Some(p)));
    var f := FinishNormalSwap(s2, k, sha256, consolidate);
    assert f.1.Raised?;
  }
}
