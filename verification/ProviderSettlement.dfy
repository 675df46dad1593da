/** Exactly when a claimed swap's hold invoice is settled. */
module ProviderSettlement {
  import opened Common
  import opened Invoices
  import opened Provider
  import opened ProviderRuns
  import opened ProviderInvariant
  import opened ProviderSafety

  /** What p reveals is no collision with payment hash k under ripemd. */
  predicate NoCollision(env: Env, k: Hash, p: Bytes)
  {
    env.ripemd(env.sha256(p)) == env.ripemd(k) ==> env.sha256(p) == k
  }

  /** What _claim_swap has to see, and to remember, to settle a hold invoice: the backend is up to date, the first
      output of a normal swap without a preimage is spent, unconfirmed or at most 30 blocks deep, and the spender
      reveals a preimage. */
  predicate FindsPreimage(s: State, k: Hash, o: Observation, sha256: Bytes -> Bytes)
    requires k in s.mem.swaps
  {
    && o.upToDate && !s.mem.swaps[k].isReverse && s.mem.swaps[k].preimage.None?
    && o.txos != [] && o.txos[0].spent.Some?
    && var tx := o.txos[0].spent.value;
       && (tx.height == 0 || o.height - tx.height <= REDEEM_AFTER_DOUBLE_SPENT_DELAY)
       && FindPreimage(tx.inputs, k, sha256).Found? && FindPreimage(tx.inputs, k, sha256).preimage != []
  }

  /** Every accepted HTLC of the hold invoice has its request. */
  predicate Attached(s: State, k: Hash)
  {
    k in s.mem.invoices ==> AllAttached(s.mem.invoices[k].htlcs)
  }

  lemma {:induction false} FoundHashes(inputs: seq<Input>, k: Hash, sha256: Bytes -> Bytes)
    requires FindPreimage(inputs, k, sha256).Found?
    ensures sha256(FindPreimage(inputs, k, sha256).preimage) == k
  {
    if sha256(inputs[0].elements[1]) != k {
      FoundHashes(inputs[1..], k, sha256);
    }
  }

  lemma FirstOfNormal(swap: Swap, txos: seq<Txo>)
    requires !swap.isReverse
    ensures FirstUsable(swap, txos) == if txos == [] then None else Some(txos[0])
  {
  }

  /** The invoice as a run of _claim_swap leaves it, if settling it is tried. */
  lemma TriedExactlyWhen(s: State, k: Hash, o: Observation, sha256: Bytes -> Bytes, consolidate: bool)
    requires k in s.mem.swaps
    ensures ClaimSwap(s, k, o, sha256, consolidate).settled ==
            if FindsPreimage(s, k, o, sha256) && k in s.mem.invoices then
              Some(Settle(s.mem.invoices[k], FindPreimage(o.txos[0].spent.value.inputs, k, sha256).preimage, sha256).0)
            else None
  {
    hide Settle, FindPreimage, FirstUsable, FailSwap, Write, DropHoldInvoice;
    if !s.mem.swaps[k].isReverse {
      FirstOfNormal(s.mem.swaps[k], o.txos);
    }
  }

  /** What the invariant says about the invoice of a funded swap without a preimage. */
  lemma FundedInvoice(env: Env, w: World, s: State, k: Hash)
    requires WorldOk(env, w) && ImageOk(env, w, s.mem) && k in w.fundings && Unrevealed(s.mem.swaps, k)
    ensures k in w.terms && !s.mem.swaps[k].isReverse
    ensures s.mem.swaps[k].prepayHash.Some? && s.mem.swaps[k].prepayHash != Some(k)
    ensures k in s.mem.invoices && s.mem.invoices[k].paymentHash == k && s.mem.invoices[k].status.FUNDED?
    ensures IsFullyFunded(s.mem.invoices[k])
  {
    assert FundedOk(env, w, s.mem, k);
    assert SwapOk(env, w, k, s.mem.swaps[k]);
    assert TermsOk(env, w, k) && PrepaymentOk(w, w.terms[k].request.prepayHash);
    assert InvoiceOk(env, w, k, s.mem.invoices[k]);
  }

  /** Settling with the right preimage ends in SETTLED exactly for a funded invoice with every request attached. */
  lemma SettlesIff(inv: InvoiceRecord, p: Bytes, sha256: Bytes -> Bytes)
    requires WellFormed(inv) && inv.paymentHash == sha256(p)
    ensures Settle(inv, p, sha256).0.status.SETTLED? <==> inv.status in {FUNDED, SETTLED} && AllAttached(inv.htlcs)
  {
    FullyFundedIsFunded(inv);
  }

  /** In every reachable state: a run of _claim_swap settles the hold invoice exactly if it sees a preimage, the invoice
      is there and funded, and every accepted HTLC has its request; for a swap whose funding was sent, the invoice is
      always there and funded while the swap holds no preimage. */
  lemma SettledExactlyWhen(env: Env, w: World, s: State, k: Hash, o: Observation, consolidate: bool)
    requires Reachable(env, w, s) && Enabled(env, w, s, ClaimStep(k, o, consolidate))
    ensures var r := ClaimSwap(s, k, o, env.sha256, consolidate);
            && ((r.settled.Some? && r.settled.value.status.SETTLED?) <==>
                FindsPreimage(s, k, o, env.sha256) && Attached(s, k)
                && k in s.mem.invoices && s.mem.invoices[k].status in {FUNDED, SETTLED})
            && (k in w.fundings ==>
                  ((r.settled.Some? && r.settled.value.status.SETTLED?) <==>
                   FindsPreimage(s, k, o, env.sha256) && Attached(s, k)))
  {
    hide ClaimSwap, Possible, RunOf, FindPreimage, Settle, IsFullyFunded;
    ReachableInv(env, w, s);
    TriedExactlyWhen(s, k, o, env.sha256, consolidate);
    if FindsPreimage(s, k, o, env.sha256) {
      var inputs := o.txos[0].spent.value.inputs;
      FoundHashes(inputs, k, env.sha256);
      if k in w.fundings {
        FundedInvoice(env, w, s, k);
      }
      if k in s.mem.invoices {
        InvoiceOfImage(env, w, s.mem, k);
        SettlesIff(s.mem.invoices[k], FindPreimage(inputs, k, env.sha256).preimage, env.sha256);
      }
    }
  }

  /** The only input of a spender that takes the hash branch reveals a preimage of the payment hash. */
  lemma ClaimReveals(env: Env, w: World, k: Hash, tx: SpendTx)
    requires WorldOk(env, w) && k in w.terms
    requires |tx.inputs| == 1 && IsClaimInput(env, SwapLock(w, k), tx.inputs[0])
    requires NoCollision(env, k, tx.inputs[0].elements[1])
    ensures FindPreimage(tx.inputs, k, env.sha256) == Found(tx.inputs[0].elements[1])
    ensures tx.inputs[0].elements[1] != []
  {
    assert TermsOk(env, w, k);
    assert env.ripemd(env.sha256(tx.inputs[0].elements[1])) == env.ripemd(k);
  }

  /** The client's claim, as one run of _claim_swap sees it: the first lockup output is spent through the hash branch
      by a transaction with one input, unconfirmed or at most 30 blocks deep. */
  predicate SeesClaim(env: Env, w: World, k: Hash, o: Observation)
    requires k in w.terms
  {
    && o.upToDate && o.txos != [] && o.txos[0].spent.Some?
    && var tx := o.txos[0].spent.value;
       && (tx.height == 0 || o.height - tx.height <= REDEEM_AFTER_DOUBLE_SPENT_DELAY)
       && |tx.inputs| == 1 && IsClaimInput(env, SwapLock(w, k), tx.inputs[0])
  }

  /** In every reachable state: when _claim_swap sees the client's claim of a swap whose funding was sent and that
      holds no preimage, with every request attached, this run settles every accepted HTLC with the revealed preimage
      and removes the swap and its invoice from memory and disk. */
  lemma ClaimSettlesEverything(env: Env, w: World, s: State, k: Hash, o: Observation, consolidate: bool)
    requires Reachable(env, w, s) && Enabled(env, w, s, ClaimStep(k, o, consolidate))
    requires k in w.fundings && k in w.terms && SeesClaim(env, w, k, o)
    requires NoCollision(env, k, o.txos[0].spent.value.inputs[0].elements[1])
    requires s.mem.swaps[k].preimage.None? && Attached(s, k)
    ensures k in s.mem.invoices
    ensures var r := ClaimSwap(s, k, o, env.sha256, consolidate);
            var hs := s.mem.invoices[k].htlcs;
            var p := o.txos[0].spent.value.inputs[0].elements[1];
            && r.outcome.Done? && r.settled.Some? && r.settled.value.status.SETTLED?
            && |r.settled.value.htlcs| == |hs| && !Has(r.settled.value.htlcs, Accepted)
            && (forall i :: 0 <= i < |hs| ==>
                  r.settled.value.htlcs[i] ==
                  if hs[i].state.Accepted? then hs[i].(state := Settled, callback := Answered(ResolveWith(p)))
                  else hs[i])
            && k !in r.state.mem.invoices && k !in r.state.mem.swaps
            && k !in r.state.disk.invoices && k !in r.state.disk.swaps
            && k !in r.state.watching
  {
    hide Inv, WorldOk, ImageOk, ClaimSwap, Possible, RunOf, FindPreimage, Settle, IsFullyFunded;
    ReachableInv(env, w, s);
    WorldOfInv(env, w, s);
    var tx := o.txos[0].spent.value;
    ClaimReveals(env, w, k, tx);
    FundedInvoice(env, w, s, k);
    FoundHashes(tx.inputs, k, env.sha256);
    FoundIsSettled(s, k, o, tx.inputs[0].elements[1], env.sha256, consolidate);
  }

  lemma WorldOfInv(env: Env, w: World, s: State)
    requires Inv(env, w, s)
    ensures WorldOk(env, w) && Good(env, w, s) && ImageOk(env, w, s.mem)
  {
  }

  /** The run that finds the preimage p, on the functions. */
  lemma FoundIsSettled(s: State, k: Hash, o: Observation, p: Bytes, sha256: Bytes -> Bytes, consolidate: bool)
    requires k in s.mem.swaps && FindsPreimage(s, k, o, sha256)
    requires FindPreimage(o.txos[0].spent.value.inputs, k, sha256) == Found(p) && sha256(p) == k
    requires k in s.mem.invoices && s.mem.invoices[k].paymentHash == k
    requires IsFullyFunded(s.mem.invoices[k]) && AllAttached(s.mem.invoices[k].htlcs)
    requires s.mem.swaps[k].prepayHash != Some(k)
    ensures var r := ClaimSwap(s, k, o, sha256, consolidate);
            var hs := s.mem.invoices[k].htlcs;
            && r.outcome.Done? && r.settled.Some? && r.settled.value.status.SETTLED?
            && |r.settled.value.htlcs| == |hs| && !Has(r.settled.value.htlcs, Accepted)
            && (forall i :: 0 <= i < |hs| ==>
                  r.settled.value.htlcs[i] ==
                  if hs[i].state.Accepted? then hs[i].(state := Settled, callback := Answered(ResolveWith(p)))
                  else hs[i])
            && k !in r.state.mem.invoices && k !in r.state.mem.swaps
            && k !in r.state.disk.invoices && k !in r.state.disk.swaps
            && k !in r.state.watching
  {
    FirstStuckIsEnd(s.mem.invoices[k].htlcs);
    var txo := o.txos[0];
    var s1 := SetSwap(s, k, Observed(s.mem.swaps[k], txo));
    var s2 := SetSwap(s1, k, s1.mem.swaps[k].(preimage := Some(p)));
    var f := FinishNormalSwap(s2, k, sha256, consolidate);
    assert f.1.Done?;
    assert ClaimSwap(s, k, o, sha256, consolidate) == Claim(f.0, f.1, None, f.2);
  }
}
