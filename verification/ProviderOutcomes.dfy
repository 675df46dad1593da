/** When the provider funds a swap, when it drops one, and what a restart resumes: each as an exact condition on the
    state before. */
module ProviderOutcomes {
  import opened Common
  import opened Invoices
  import opened Provider
  import opened ProviderRuns
  import opened ProviderInvariant
  import opened ProviderClaims
  import opened ProviderSafety
  import opened ProviderSettlement
  import opened ProviderMoves

  // ---- Funding ----

  /** A turn may go on to the callback: there is no prepay invoice, or it can be settled now. */
  predicate PrepayIsReady(env: Env, s: State, k: Hash)
    requires k in s.mem.invoices
  {
    s.mem.invoices[k].associated.None? || SettlesPrepay(env, s, k)
  }

  lemma ProceedsExactlyWhen(env: Env, w: World, s: State, k: Hash, consolidate: bool)
    requires Inv(env, w, s) && k in s.mem.invoices
    ensures SettlePrepay(s, k, env.sha256, consolidate).proceed <==> PrepayIsReady(env, s, k)
  {
    hide WorldOk, TablesOk, Linked, WellFormed, IsFullyFunded;
    if s.mem.invoices[k].associated.Some? && s.mem.invoices[k].associated.value in s.mem.invoices {
      var q := s.mem.invoices[k].associated.value;
      InvoiceOfImage(env, w, s.mem, q);
      FullyFundedIsFunded(s.mem.invoices[q]);
    }
  }

  /** What hold_invoice_callback does for a swap without a funding txid, for each answer of the wallet. */
  lemma CallbackIs(s: State, k: Hash, f: FundingResult, consolidate: bool)
    ensures var r := HoldInvoiceCallback(s, k, f, consolidate);
            var isOpen := k in s.mem.swaps && s.mem.swaps[k].fundingTxid.None?;
            && (r.attempted <==> isOpen && (f.Sent? || f.SendFails?))
            && (!isOpen || f.CreateRaises? ==> r.state == s)
            && (r.outcome.Raised? <==> isOpen && f.CreateRaises?)
            && (isOpen && f.NoTransaction? ==> k !in r.state.mem.swaps && k !in r.state.disk.swaps)
            && (isOpen && f.Sent? ==> r.state == SetSwap(s, k, s.mem.swaps[k].(fundingTxid := Some(f.txid))))
            && (isOpen && f.SendFails? && !s.mem.swaps[k].isRedeemed ==>
                  var swap := s.mem.swaps[k].(fundingTxid := Some(f.txid));
                  && k in r.state.mem.swaps && r.state.mem.swaps[k] == swap && k !in r.state.watching
                  && (s.tracked.swaps == s.mem.swaps ==> k in r.state.disk.swaps && r.state.disk.swaps[k] == swap))
  {
  }

  lemma TurnIs(s: State, k: Hash, f: FundingResult, sha256: Bytes -> Bytes, c1: bool, c2: bool)
    ensures var t := CallbackTurn(s, k, f, sha256, c1, c2);
            var isReady := k in s.mem.invoices && s.mem.invoices[k].status.FUNDED?
                           && SettlePrepay(s, k, sha256, c1).proceed;
            && (!isReady ==> !t.attempted)
            && (isReady ==>
                  var r := HoldInvoiceCallback(SettlePrepay(s, k, sha256, c1).state, k, f, c2);
                  && t.attempted == r.attempted && t.outcome == r.outcome
                  && t.state == if r.outcome.Raised? then r.state else r.state.(callbacks := r.state.callbacks - {k}))
  {
    hide SettlePrepay, HoldInvoiceCallback;
  }

  lemma PrepayLeavesSwaps(s: State, k: Hash, sha256: Bytes -> Bytes, consolidate: bool)
    requires k in s.mem.invoices && Linked(s)
    ensures var t := SettlePrepay(s, k, sha256, consolidate).state;
            t.mem.swaps == s.mem.swaps && t.tracked.swaps == t.mem.swaps && t.watching == s.watching
  {
    hide Settle;
  }

  /** In every reachable state: a turn sends a funding transaction exactly if the hold invoice is FUNDED, its prepay
      invoice can be settled now, the swap is there without a funding txid, and the wallet made a transaction. */
  lemma FundedExactlyWhen(env: Env, w: World, s: State, st: Step)
    requires Reachable(env, w, s) && Enabled(env, w, s, st) && st.TurnStep?
    ensures var isSent := && st.k in s.mem.invoices && s.mem.invoices[st.k].status.FUNDED?
                          && PrepayIsReady(env, s, st.k)
                          && st.k in s.mem.swaps && s.mem.swaps[st.k].fundingTxid.None?
                          && (st.f.Sent? || st.f.SendFails?);
            Next(env, w, s, st).0.fundings == w.fundings + if isSent then [st.k] else []
  {
    hide Reachable, CallbackTurn, AfterSettle, Inv, PrepayIsReady, SettlePrepay, HoldInvoiceCallback;
    ReachableInv(env, w, s);
    AttemptedExactlyWhen(env, w, s, st);
    AfterSettleKeepsTerms(w, s, PrepayOf(s, st.k),
                          CallbackTurn(s, st.k, st.f, env.sha256, st.consolidate, st.consolidateOnFail).settled);
  }

  lemma AttemptedExactlyWhen(env: Env, w: World, s: State, st: Step)
    requires Inv(env, w, s) && st.TurnStep?
    ensures CallbackTurn(s, st.k, st.f, env.sha256, st.consolidate, st.consolidateOnFail).attempted <==>
              && st.k in s.mem.invoices && s.mem.invoices[st.k].status.FUNDED? && PrepayIsReady(env, s, st.k)
              && st.k in s.mem.swaps && s.mem.swaps[st.k].fundingTxid.None? && (st.f.Sent? || st.f.SendFails?)
  {
    hide CallbackTurn, PrepayIsReady, SettlePrepay, HoldInvoiceCallback, WorldOk, ImageOk, TablesOk;
    TurnIs(s, st.k, st.f, env.sha256, st.consolidate, st.consolidateOnFail);
    if st.k in s.mem.invoices {
      ProceedsExactlyWhen(env, w, s, st.k, st.consolidate);
      PrepayLeavesSwaps(s, st.k, env.sha256, st.consolidate);
      CallbackIs(SettlePrepay(s, st.k, env.sha256, st.consolidate).state, st.k, st.f, st.consolidateOnFail);
    }
  }

  /** The txid of a transaction that was sent is recorded, and the callback of the swap is over. If sending it
      fails, the swap stays, with the txid, live and on disk, and is no longer watched. Without a transaction the
      swap is dropped, and if the wallet raises nothing changes but the prepay invoice. */
  lemma FundingLeaves(env: Env, w: World, s: State, st: Step)
    requires Reachable(env, w, s) && Enabled(env, w, s, st) && st.TurnStep?
    requires st.k in s.mem.invoices && s.mem.invoices[st.k].status.FUNDED? && PrepayIsReady(env, s, st.k)
    requires st.k in s.mem.swaps && s.mem.swaps[st.k].fundingTxid.None?
    ensures var k, swap, s' := st.k, s.mem.swaps[st.k], Next(env, w, s, st).1;
            match st.f {
              case CreateRaises => s'.mem.swaps == s.mem.swaps && (k in s.callbacks ==> k in s'.callbacks)
              case NoTransaction => k !in s'.mem.swaps && k !in s'.disk.swaps && k !in s'.callbacks
              case Sent(txid) =>
                && s'.mem.swaps == s.mem.swaps[k := swap.(fundingTxid := Some(txid))]
                && k !in s'.callbacks && s'.watching == s.watching
              case SendFails(txid) =>
                !swap.isRedeemed ==>
                  && k in s'.mem.swaps && s'.mem.swaps[k] == swap.(fundingTxid := Some(txid))
                  && k in s'.disk.swaps && s'.disk.swaps[k] == s'.mem.swaps[k]
                  && k !in s'.callbacks && k !in s'.watching
            }
  {
    hide Reachable, CallbackTurn, AfterSettle, PrepayIsReady, SettlePrepay, HoldInvoiceCallback, WorldOk, ImageOk,
         TablesOk,
         Linked;
    ReachableInv(env, w, s);
    ProceedsExactlyWhen(env, w, s, st.k, st.consolidate);
    PrepayLeavesSwaps(s, st.k, env.sha256, st.consolidate);
    PrepayKeepsCallbacks(s, st.k, env.sha256, st.consolidate);
    TurnIs(s, st.k, st.f, env.sha256, st.consolidate, st.consolidateOnFail);
    CallbackIs(SettlePrepay(s, st.k, env.sha256, st.consolidate).state, st.k, st.f, st.consolidateOnFail);
  }

  lemma PrepayKeepsCallbacks(s: State, k: Hash, sha256: Bytes -> Bytes, consolidate: bool)
    requires k in s.mem.invoices
    ensures SettlePrepay(s, k, sha256, consolidate).state.callbacks == s.callbacks
  {
    hide Settle;
  }

  // ---- Dropping a swap ----

  /** What a run of _claim_swap sees that makes it drop the swap: nothing usable by the locktime, for a swap that
      was not funded; a spend more than 30 blocks deep; its own refund, confirmed; or a preimage, when the hold
      invoice can be settled with it. */
  predicate DropsSwap(s: State, k: Hash, o: Observation, sha256: Bytes -> Bytes, i: int)
    requires k in s.mem.swaps && UsableAt(s.mem.swaps[k], o.txos, i)
  {
    var swap, txo := s.mem.swaps[k], o.txos[i];
    && txo.spent.Some?
    && var tx := txo.spent.value;
       || (tx.height > 0 && o.height - tx.height > 30)
       || (!swap.isReverse && swap.preimage.None?
           && match FindPreimage(tx.inputs, k, sha256) {
                case IndexError => false
                case Missing => tx.height >= 2
                case Found(p) => p != [] && k in s.mem.invoices && Settle(s.mem.invoices[k], p, sha256).1
              })
  }

  lemma DroppedExactlyWhen(s: State, k: Hash, o: Observation, sha256: Bytes -> Bytes, consolidate: bool, i: int)
    requires k in s.mem.swaps && o.upToDate && UsableAt(s.mem.swaps[k], o.txos, i)
    ensures k !in ClaimSwap(s, k, o, sha256, consolidate).state.mem.swaps <==> DropsSwap(s, k, o, sha256, i)
  {
    FirstUsableIs(s.mem.swaps[k], o.txos);
    hide FirstUsable, UsableAt, FindPreimage, Settle, ClaimNormal, ClaimReverse;
    var txo := o.txos[i];
    var s1 := SetSwap(s, k, Observed(s.mem.swaps[k], txo));
    NormalDropped(s1, k, o, txo, sha256, consolidate);
    ReverseStays(s1, k, o, txo, sha256);
  }

  lemma NormalDropped(s: State, k: Hash, o: Observation, txo: Txo, sha256: Bytes -> Bytes, consolidate: bool)
    requires k in s.mem.swaps && s.mem.swaps[k].fundingTxid.Some?
    ensures k !in ClaimNormal(s, k, o, txo, sha256, consolidate).state.mem.swaps <==>
              && s.mem.swaps[k].preimage.None? && txo.spent.Some?
              && match FindPreimage(txo.spent.value.inputs, k, sha256) {
                   case IndexError => false
                   case Missing => txo.spent.value.height >= 2
                   case Found(p) => p != [] && k in s.mem.invoices && Settle(s.mem.invoices[k], p, sha256).1
                 }
  {
    hide FindPreimage, Settle;
  }

  lemma ReverseStays(s: State, k: Hash, o: Observation, txo: Txo, sha256: Bytes -> Bytes)
    requires k in s.mem.swaps
    ensures k in ClaimReverse(s, k, o, txo, sha256).state.mem.swaps
  {
  }

  /** Without a usable output, a swap that was not funded is dropped once its locktime is reached, and any other is then
      no longer watched; before that, and without an up-to-date backend, nothing happens. */
  lemma UnfundedDroppedExactlyWhen(s: State, k: Hash, o: Observation, sha256: Bytes -> Bytes, consolidate: bool)
    requires k in s.mem.swaps && (o.upToDate ==> forall i :: !UsableAt(s.mem.swaps[k], o.txos, i))
    ensures var r, swap := ClaimSwap(s, k, o, sha256, consolidate).state, s.mem.swaps[k];
            if o.upToDate && swap.lock.locktime <= o.height then
              && k !in r.watching && k !in r.toPay
              && (k !in r.mem.swaps <==> swap.fundingTxid.None? || swap.isRedeemed)
              && (k !in r.mem.swaps ==> k !in r.disk.swaps)
            else r == s
  {
    FirstUsableIs(s.mem.swaps[k], o.txos);
  }

  /** Settling a swap for good leaves nothing of it: neither invoice, no preimage, no swap, no callback, and no
      watch, in the live tree and on disk. */
  lemma FinishLeavesNothing(s: State, k: Hash, o: Observation, sha256: Bytes -> Bytes, consolidate: bool, p: Bytes)
    requires k in s.mem.swaps && Linked(s) && FindsPreimage(s, k, o, sha256) && k in s.mem.invoices
    requires FindPreimage(o.txos[0].spent.value.inputs, k, sha256) == Found(p)
    requires Settle(s.mem.invoices[k], p, sha256).1
    ensures var r := ClaimSwap(s, k, o, sha256, consolidate);
            && r.outcome.Done?
            && (forall im :: im in {r.state.mem, r.state.disk} ==>
                  k !in im.invoices && k !in im.swaps && k !in im.preimages
                  && (s.mem.swaps[k].prepayHash.Some? ==> s.mem.swaps[k].prepayHash.value !in im.invoices))
            && k !in r.state.callbacks && k !in r.state.watching
            && (s.mem.swaps[k].prepayHash.Some? ==> s.mem.swaps[k].prepayHash.value !in r.state.callbacks)
  {
    hide FindPreimage, Settle, FirstUsable, Stored;
    FirstOfNormal(s.mem.swaps[k], o.txos);
  }

  // ---- Restarting ----

  /** A crash loses what was not written, and nothing else: after the restart the live tree has what the disk had,
      but for open normal swaps whose invoice is gone; every open swap is watched, every open normal one has its
      callback, and no pass over the callbacks is under way. */
  lemma RestartResumes(env: Env, w: World, s: State)
    ensures var s' := Next(env, w, s, Crash).1;
            && s'.disk == s.disk && s'.mem == s'.tracked
            && s'.mem.invoices == s.disk.invoices && s'.mem.preimages == s.disk.preimages
            && (forall k :: k in s'.mem.swaps <==>
                  k in s.disk.swaps && (s.disk.swaps[k].isReverse || s.disk.swaps[k].isRedeemed
                      || k in s.disk.invoices))
            && (forall k :: k in s'.mem.swaps ==> s'.mem.swaps[k] == s.disk.swaps[k])
            && (forall k :: k in s'.watching <==> k in s'.mem.swaps && !s'.mem.swaps[k].isRedeemed)
            && (forall k :: k in s'.callbacks <==> k in s'.watching && !s'.mem.swaps[k].isReverse)
            && s'.sweep == {} && s'.creating == {} && s'.toPay == map[]
  {
  }

  // ---- Creating ----

  /** What create_normal_swap leaves when no amount is zero or less: the hold invoice over the amount without the
      prepayment, bundled with the prepay invoice over that, both UNFUNDED and valid for 300 seconds; the preimage
      of the prepay invoice; and a swap that nothing is known about yet. All of it is on disk but the swap, which no
      write follows. */
  lemma CreatedIs(s: State, r: Request, consolidate: bool)
    requires 0 < r.prepaySat < r.lightningSat && r.paymentHash != r.prepayHash
    ensures CreateLimit(r) == 5
    ensures var t := CreateStages(s, r, 5, consolidate);
            var main := InvoiceRecord(r.paymentHash, r.main, (r.lightningSat - r.prepaySat) * 1000, 300, [],
                UNFUNDED, r.now,
                                      Some(r.prepayHash));
            var prepay := InvoiceRecord(r.prepayHash, r.prepay, r.prepaySat * 1000, 300, [], UNFUNDED, r.now, None);
            && t.mem.invoices == s.mem.invoices[r.paymentHash := main][r.prepayHash := prepay]
            && t.mem.preimages == s.mem.preimages[r.prepayHash := r.prepayPreimage]
            && t.mem.swaps == s.mem.swaps[r.paymentHash :=
                 Swap(false, r.lock, r.onchainSat, r.lightningSat, None, Some(r.prepayHash), None, None, false)]
            && t.creating == s.creating + {r.paymentHash}
            && r.paymentHash in t.disk.invoices && t.disk.invoices[r.paymentHash] == main
            && r.prepayHash in t.disk.invoices && t.disk.invoices[r.prepayHash] == prepay
            && r.prepayHash in t.disk.preimages && t.disk.preimages[r.prepayHash] == r.prepayPreimage
  {
    var main0 := NewInvoice(r.paymentHash, r.main, MainSat(r), r.now);
    var main, prepay := main0.(associated := Some(r.prepayHash)),
        NewInvoice(r.prepayHash, r.prepay, r.prepaySat, r.now);
    var t := seq(6, n requires 0 <= n < 6 => CreateStages(s, r, n, consolidate));
    assert forall n :: 1 <= n < 6 ==> t[n] == NextStage(t[n - 1], r, n, consolidate);
    hide CreateStages;
    SavedIs(t[0], r.paymentHash, main0, consolidate);
    PreimageSavedIs(t[1], r.prepayHash, r.prepayPreimage, consolidate);
    SavedIs(t[2], r.prepayHash, prepay, consolidate);
    SavedIs(t[3], r.paymentHash, main, consolidate);
    hide SaveHoldInvoice, Write;
    assert InBoth(t[4], r.prepayHash, prepay) && InBoth(t[4], r.paymentHash, main);
    assert Known(t[4], r.prepayHash, r.prepayPreimage);
    assert t[4].mem.invoices == s.mem.invoices[r.paymentHash := main][r.prepayHash := prepay];
  }

  /** The live and the recorded tree have the same invoice at h, without an HTLC; and the same preimage. */
  predicate InBoth(s: State, h: Hash, inv: InvoiceRecord)
  {
    && h in s.mem.invoices && s.mem.invoices[h] == inv && inv.htlcs == []
    && h in s.tracked.invoices && s.tracked.invoices[h] == inv
  }

  predicate Known(s: State, h: Hash, p: Bytes)
  {
    h in s.mem.preimages && s.mem.preimages[h] == p && h in s.tracked.preimages && s.tracked.preimages[h] == p
  }

  lemma WrittenIs(s: State, consolidate: bool)
    ensures var t := Write(s, consolidate);
            && t.mem == s.mem && t.disk == t.tracked && t.creating == s.creating
            && (forall g, inv :: InBoth(s, g, inv) ==> InBoth(t, g, inv))
            && (forall g, p :: Known(s, g, p) ==> Known(t, g, p))
  {
    assert StoredHtlcs([]) == [];
  }

  lemma SavedIs(s: State, h: Hash, inv: InvoiceRecord, consolidate: bool)
    requires inv.htlcs == []
    ensures var t := SaveHoldInvoice(s, h, inv, consolidate);
            && t.mem == s.mem.(invoices := s.mem.invoices[h := inv]) && t.disk == t.tracked && t.creating == s.creating
            && InBoth(t, h, inv)
            && (forall g, i :: g != h && InBoth(s, g, i) ==> InBoth(t, g, i))
            && (forall g, p :: Known(s, g, p) ==> Known(t, g, p))
  {
    assert StoredHtlcs([]) == [];
    WrittenIs(SetInvoice(s, h, inv), consolidate);
    hide Write;
    assert InBoth(SetInvoice(s, h, inv), h, inv);
    assert forall g, i :: g != h && InBoth(s, g, i) ==> InBoth(SetInvoice(s, h, inv), g, i);
    assert forall g, p :: Known(s, g, p) ==> Known(SetInvoice(s, h, inv), g, p);
  }

  lemma PreimageSavedIs(s: State, h: Hash, p: Bytes, consolidate: bool)
    ensures var t := Write(SetPreimage(s, h, p), consolidate);
            && t.mem == s.mem.(preimages := s.mem.preimages[h := p]) && t.creating == s.creating && Known(t, h, p)
            && (forall g, i :: InBoth(s, g, i) ==> InBoth(t, g, i))
  {
    WrittenIs(SetPreimage(s, h, p), consolidate);
    hide Write;
    assert Known(SetPreimage(s, h, p), h, p);
    assert forall g, i :: InBoth(s, g, i) ==> InBoth(SetPreimage(s, h, p), g, i);
  }
}
