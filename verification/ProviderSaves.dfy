/** The operations of the provider as edits of its journaled database: each takes a store that stands for the live, the
    tracked and the durable image of a state to one that stands for those of the state after it. The live objects that
    the code reads are the live image. */
module ProviderSaves {
  import opened Common
  import opened Invoices
  import opened Provider
  import opened ProviderRuns
  import opened ProviderInvariant
  import opened ProviderSafety
  import opened ProviderDoc
  import opened ProviderStore

  /** The recorded tree has what the live tree has, but for what the HTLCs of an invoice went through since its save. */
  predicate InStep(s: State)
  {
    && s.mem.swaps == s.tracked.swaps && s.mem.preimages == s.tracked.preimages
    && s.mem.invoices.Keys == s.tracked.invoices.Keys
  }

  /** So it is in every reachable state, where a new request finds neither its preimage nor its swap. */
  lemma ReachableInStep(env: Env, w: World, s: State)
    requires Reachable(env, w, s)
    ensures InStep(s)
    ensures forall st :: Enabled(env, w, s, st) && st.Create? ==>
              st.r.prepayHash !in s.mem.preimages && st.r.paymentHash !in s.mem.swaps
  {
    hide Reachable, WorldOk, TablesOk;
    ReachableInv(env, w, s);
    forall st | Enabled(env, w, s, st) && st.Create?
      ensures st.r.prepayHash !in s.mem.preimages && st.r.paymentHash !in s.mem.swaps
    {
      UnusedIsUnknown(env, w, s, st.r.prepayHash);
      UnusedIsUnknown(env, w, s, st.r.paymentHash);
    }
  }

  lemma SetTwice(s: State, k: Hash, a: Swap, b: Swap)
    ensures SetSwap(SetSwap(s, k, a), k, b) == SetSwap(s, k, b)
  {
  }

  // ---- CLNLightning ----

  /** delete_hold_invoice without the write: nothing happens when there is none. */
  method DropHoldInvoice(store: Store, k: Hash, s: State)
    requires store.Stands(s) && InStep(s)
    modifies store.db
    ensures store.Stands(Provider.DropHoldInvoice(s, k)) && InStep(Provider.DropHoldInvoice(s, k))
  {
    hide Store.StandsFor;
    if k in s.mem.invoices {
      var _ := store.PopInvoice(k, s);
    } else {
      assert s.mem.invoices - {k} == s.mem.invoices && s.tracked.invoices - {k} == s.tracked.invoices;
    }
  }

  /** A call on the live invoice at k that makes a record of it what inv says, and update_invoice. */
  method SaveChanged(store: Store, k: Hash, inv: InvoiceRecord, s: State) returns (consolidate: bool)
    requires store.Stands(s) && InStep(s) && k in s.mem.invoices
    modifies store.db, store.db.storage
    ensures store.Stands(Provider.UpdateInvoice(Touch(s, k, inv), k, consolidate))
    ensures InStep(Provider.UpdateInvoice(Touch(s, k, inv), k, consolidate))
  {
    hide Store.StandsFor;
    store.Touch(k, InvoiceValue(inv, store.text), inv, s);
    consolidate := store.UpdateInvoice(k, Touch(s, k, inv));
  }

  /** save_hold_invoice, for a new invoice or one that bundle_payments takes out and changes. */
  method SaveHoldInvoice(store: Store, k: Hash, inv: InvoiceRecord, s: State) returns (consolidate: bool)
    requires store.Stands(s) && InStep(s)
    modifies store.db, store.db.storage
    ensures store.Stands(Provider.SaveHoldInvoice(s, k, inv, consolidate))
    ensures InStep(Provider.SaveHoldInvoice(s, k, inv, consolidate))
  {
    hide Store.StandsFor;
    SetPopped(s, k, inv);
    if k in s.mem.invoices {
      var _ := store.PopInvoice(k, s);
      store.AddInvoice(k, InvoiceValue(inv, store.text), inv, Provider.PopInvoice(s, k));
    } else {
      store.AddInvoice(k, InvoiceValue(inv, store.text), inv, s);
    }
    consolidate := store.Write(SetInvoice(s, k, inv));
  }

  /** plugin_htlc_accepted_hook */
  method HtlcAccepted(store: Store, k: Hash, inc: Incoming, decodeOk: bool, now: int, s: State)
    returns (consolidate: bool)
    requires store.Stands(s) && InStep(s)
    modifies store.db, store.db.storage
    ensures store.Stands(Provider.HtlcAccepted(s, k, inc, decodeOk, now, consolidate))
    ensures InStep(Provider.HtlcAccepted(s, k, inc, decodeOk, now, consolidate))
  {
    hide Store.StandsFor, HandleHtlc;
    consolidate := false;
    if k in s.mem.invoices {
      var (inv, changed) := HandleHtlc(s.mem.invoices[k], inc, decodeOk, now);
      if changed {
        consolidate := SaveChanged(store, k, inv, s);
      } else {
        store.Touch(k, InvoiceValue(inv, store.text), inv, s);
      }
    }
  }

  /** check_invoice_expiry */
  method CheckInvoiceExpiry(store: Store, k: Hash, now: int, s: State) returns (consolidate: bool)
    requires store.Stands(s) && InStep(s)
    modifies store.db, store.db.storage
    ensures store.Stands(Provider.CheckInvoiceExpiry(s, k, now, consolidate).state)
    ensures InStep(Provider.CheckInvoiceExpiry(s, k, now, consolidate).state)
  {
    hide Store.StandsFor, CancelAll;
    consolidate := false;
    if k in s.mem.invoices {
      var inv := s.mem.invoices[k];
      if inv.createdAt + inv.expiry < now && inv.status !in {FUNDED, SETTLED} {
        var (inv', ok) := CancelAll(inv);
        store.Touch(k, InvoiceValue(inv', store.text), inv', s);
        if ok && (inv.associated.None? || inv.associated.value !in s.mem.invoices) {
          DropHoldInvoice(store, k, Touch(s, k, inv'));
          consolidate := store.Write(Provider.DropHoldInvoice(Touch(s, k, inv'), k));
        }
      }
    }
  }

  /** The part of callback_handler's turn that settles the prepay invoice. */
  method SettlePrepay(store: Store, k: Hash, sha256: Bytes -> Bytes, s: State) returns (consolidate: bool)
    requires store.Stands(s) && InStep(s) && k in s.mem.invoices
    modifies store.db, store.db.storage
    ensures store.Stands(Provider.SettlePrepay(s, k, sha256, consolidate).state)
    ensures InStep(Provider.SettlePrepay(s, k, sha256, consolidate).state)
  {
    hide Store.StandsFor, Settle;
    consolidate := false;
    if s.mem.invoices[k].associated.Some? {
      var q := s.mem.invoices[k].associated.value;
      if q in s.mem.invoices && s.mem.invoices[q].status.FUNDED? && q in s.mem.preimages
         && sha256(s.mem.preimages[q]) == q {
        var (inv, ok) := Settle(s.mem.invoices[q], s.mem.preimages[q], sha256);
        if ok {
          consolidate := SaveChanged(store, q, inv, s);
        } else {
          store.Touch(q, InvoiceValue(inv, store.text), inv, s);
        }
      }
    }
  }

  // ---- SwapManager ----

  /** _fail_swap */
  method FailSwap(store: Store, k: Hash, swap: Swap, s: State) returns (consolidate: bool)
    requires store.Stands(s) && InStep(s)
    modifies store.db, store.db.storage
    ensures store.Stands(Provider.FailSwap(s, k, swap, consolidate).0)
    ensures InStep(Provider.FailSwap(s, k, swap, consolidate).0)
  {
    hide Store.StandsFor;
    consolidate := false;
    if swap.fundingTxid.Some? && !swap.isRedeemed {
      consolidate := store.Write(s);
    } else if k in s.mem.swaps {
      store.PopSwap(k, s);
      consolidate := store.Write(Provider.PopSwap(s, k));
    }
  }

  /** The attributes that are assigned once a swap is stored. */
  method SetFundingTxid(store: Store, k: Hash, txid: Bytes, s: State)
    requires store.Stands(s) && InStep(s) && k in s.mem.swaps
    modifies store.db
    ensures var t := SetSwap(s, k, s.mem.swaps[k].(fundingTxid := Some(txid))); store.Stands(t) && InStep(t)
  {
    hide Store.StandsFor;
    Assignments(s.mem.swaps[k], Some(txid), false);
    store.SetAttribute(k, 1, OptionalText(Some(txid)), s.mem.swaps[k].(fundingTxid := Some(txid)), s);
  }

  method SetSpendingTxid(store: Store, k: Hash, txid: Bytes, s: State)
    requires store.Stands(s) && InStep(s) && k in s.mem.swaps
    modifies store.db
    ensures var t := SetSwap(s, k, s.mem.swaps[k].(spendingTxid := Some(txid))); store.Stands(t) && InStep(t)
  {
    hide Store.StandsFor;
    Assignments(s.mem.swaps[k], Some(txid), false);
    store.SetAttribute(k, 2, OptionalText(Some(txid)), s.mem.swaps[k].(spendingTxid := Some(txid)), s);
  }

  method SetRevealed(store: Store, k: Hash, preimage: Bytes, s: State)
    requires store.Stands(s) && InStep(s) && k in s.mem.swaps
    modifies store.db
    ensures var t := SetSwap(s, k, s.mem.swaps[k].(preimage := Some(preimage))); store.Stands(t) && InStep(t)
  {
    hide Store.StandsFor;
    Assignments(s.mem.swaps[k], Some(preimage), false);
    store.SetAttribute(k, 0, OptionalText(Some(preimage)), s.mem.swaps[k].(preimage := Some(preimage)), s);
  }

  method SetRedeemed(store: Store, k: Hash, s: State)
    requires store.Stands(s) && InStep(s) && k in s.mem.swaps
    modifies store.db
    ensures var t := SetSwap(s, k, s.mem.swaps[k].(isRedeemed := true)); store.Stands(t) && InStep(t)
  {
    hide Store.StandsFor;
    Assignments(s.mem.swaps[k], None, true);
    store.SetAttribute(k, 3, Json.Bool(true), s.mem.swaps[k].(isRedeemed := true), s);
  }

  /** hold_invoice_callback */
  method HoldInvoiceCallback(store: Store, k: Hash, f: FundingResult, s: State) returns (consolidate: bool)
    requires store.Stands(s) && InStep(s)
    modifies store.db, store.db.storage
    ensures store.Stands(Provider.HoldInvoiceCallback(s, k, f, consolidate).state)
    ensures InStep(Provider.HoldInvoiceCallback(s, k, f, consolidate).state)
  {
    hide Store.StandsFor, Provider.FailSwap;
    consolidate := false;
    if k in s.mem.swaps && s.mem.swaps[k].fundingTxid.None? {
      match f {
        case CreateRaises =>
        case NoTransaction =>
          consolidate := FailSwap(store, k, s.mem.swaps[k], s);
        case SendFails(txid) =>
          SetFundingTxid(store, k, txid, s);
          var swap := s.mem.swaps[k].(fundingTxid := Some(txid));
          consolidate := FailSwap(store, k, swap, SetSwap(s, k, swap));
        case Sent(txid) =>
          SetFundingTxid(store, k, txid, s);
      }
    }
  }

  /** One turn of callback_handler's loop, with what its two writes did. */
  method CallbackTurn(store: Store, k: Hash, f: FundingResult, sha256: Bytes -> Bytes, s: State)
    returns (c1: bool, c2: bool)
    requires store.Stands(s) && InStep(s)
    modifies store.db, store.db.storage
    ensures store.Stands(Provider.CallbackTurn(s, k, f, sha256, c1, c2).state)
    ensures InStep(Provider.CallbackTurn(s, k, f, sha256, c1, c2).state)
  {
    hide Store.StandsFor, Provider.SettlePrepay, Provider.HoldInvoiceCallback;
    c1, c2 := false, false;
    if k in s.mem.invoices && s.mem.invoices[k].status.FUNDED? {
      c1 := SettlePrepay(store, k, sha256, s);
      var p := Provider.SettlePrepay(s, k, sha256, c1);
      if p.proceed {
        c2 := HoldInvoiceCallback(store, k, f, p.state);
      }
    }
  }

  // ---- create_normal_swap ----

  /** What the first n saves of create_normal_swap do, with what the writes among them did: c is true once one
      of them consolidated. */
  method CreateNormalSwap(store: Store, r: Request, n: nat, s: State) returns (c: bool)
    requires store.Stands(s) && InStep(s) && n <= CreateLimit(r)
    requires r.prepayHash !in s.mem.preimages && r.paymentHash !in s.mem.swaps
    modifies store.db, store.db.storage
    ensures store.Stands(CreateStages(s, r, n, c)) && InStep(CreateStages(s, r, n, c)) && (n == 0 ==> !c)
  {
    hide Store.StandsFor, Provider.NextStage;
    c := false;
    if n > 0 {
      c := CreateNormalSwap(store, r, n - 1, s);
      StagesSoFar(s, r, n - 1, c);
      var c' := NextStage(store, r, n, CreateStages(s, r, n - 1, c));
      MixedSaves(s, r, n, c, c');
      c := c || c';
    }
  }

  method NextStage(store: Store, r: Request, n: nat, s: State) returns (c: bool)
    requires store.Stands(s) && InStep(s) && 0 < n <= CreateLimit(r)
    requires (n == 2 ==> r.prepayHash !in s.mem.preimages) && (n == 5 ==> r.paymentHash !in s.mem.swaps)
    modifies store.db, store.db.storage
    ensures store.Stands(Provider.NextStage(s, r, n, c)) && InStep(Provider.NextStage(s, r, n, c)) && (n == 5 ==> !c)
  {
    hide Store.StandsFor, Provider.SaveHoldInvoice;
    c := false;
    if n == 1 {
      c := SaveHoldInvoice(store, r.paymentHash, NewInvoice(r.paymentHash, r.main, MainSat(r), r.now), s);
    } else if n == 2 {
      store.SetPreimage(r.prepayHash, r.prepayPreimage, s);
      c := store.Write(SetPreimage(s, r.prepayHash, r.prepayPreimage));
    } else if n == 3 {
      c := SaveHoldInvoice(store, r.prepayHash, NewInvoice(r.prepayHash, r.prepay, r.prepaySat, r.now), s);
    } else if n == 4 {
      var bundled := NewInvoice(r.paymentHash, r.main, MainSat(r), r.now).(associated := Some(r.prepayHash));
      c := SaveHoldInvoice(store, r.paymentHash, bundled, s);
    } else {
      store.AddSwap(r.paymentHash, NewSwap(r), s);
    }
  }

  lemma {:induction false} StagesSoFar(s: State, r: Request, n: nat, c: bool)
    requires n <= CreateLimit(r)
    ensures var t := CreateStages(s, r, n, c);
            (n < 2 ==> t.mem.preimages == s.mem.preimages) && (n < 5 ==> t.mem.swaps == s.mem.swaps)
  {
    if n > 0 {
      StagesSoFar(s, r, n - 1, c);
    }
  }

  /** One flag for all the writes of create_normal_swap loses nothing: as soon as one of them has consolidated, the
      others make no difference. */
  lemma MixedSaves(s: State, r: Request, n: nat, c: bool, c': bool)
    requires 0 < n <= CreateLimit(r) && (n == 1 ==> !c) && (n == 5 ==> !c')
    ensures Provider.NextStage(CreateStages(s, r, n - 1, c), r, n, c') == CreateStages(s, r, n, c || c')
  {
    if c && n < 5 {
      Consolidated(s, r, n - 1);
      ConsolidatedNext(CreateStages(s, r, n - 1, true), r, n);
    } else if c' {
      LiveStages(s, r, n - 1);
    }
  }

  /** Once the recorded tree is the stored form of the live one, it makes no difference whether a save consolidates. */
  lemma ConsolidatedNext(t: State, r: Request, n: nat)
    requires 0 < n <= CreateLimit(r) && n < 5 && t.tracked == Dump(t.mem)
    ensures Provider.NextStage(t, r, n, false) == Provider.NextStage(t, r, n, true)
    ensures var u := Provider.NextStage(t, r, n, false); u.tracked == Dump(u.mem)
  {
    hide Write, SetInvoice, Dump, NewInvoice;
    if n == 2 {
      PreimageOfDump(t, r.prepayHash, r.prepayPreimage);
      DumpedStays(SetPreimage(t, r.prepayHash, r.prepayPreimage));
    } else {
      var h := if n == 3 then r.prepayHash else r.paymentHash;
      var inv := if n == 3 then NewInvoice(h, r.prepay, r.prepaySat, r.now)
                 else NewInvoice(h, r.main, MainSat(r), r.now);
      inv := if n == 4 then inv.(associated := Some(r.prepayHash)) else inv;
      InvoiceOfDump(t, h, inv);
      DumpedStays(SetInvoice(t, h, inv));
    }
  }

  lemma DumpedStays(t: State)
    requires t.tracked == Dump(t.mem)
    ensures Write(t, false) == Write(t, true) && Write(t, false).tracked == Dump(Write(t, false).mem)
  {
  }

  lemma PreimageOfDump(t: State, k: Hash, p: Bytes)
    requires t.tracked == Dump(t.mem)
    ensures var u := SetPreimage(t, k, p); u.tracked == Dump(u.mem)
  {
  }

  lemma InvoiceOfDump(t: State, h: Hash, inv: InvoiceRecord)
    requires t.tracked == Dump(t.mem)
    ensures var u := SetInvoice(t, h, inv); u.tracked == Dump(u.mem)
  {
    hide Stored;
  }

  lemma {:induction false} Consolidated(s: State, r: Request, n: nat)
    requires 0 < n <= CreateLimit(r) && n < 5
    ensures var t := CreateStages(s, r, n, true); t.tracked == Dump(t.mem)
  {
    if n > 1 {
      Consolidated(s, r, n - 1);
    }
  }

  /** Whether a write consolidates is nothing to the live tree. */
  lemma {:induction false} LiveStages(s: State, r: Request, n: nat)
    requires n <= CreateLimit(r)
    ensures var t, u := CreateStages(s, r, n, false), CreateStages(s, r, n, true);
            t == u.(tracked := t.tracked, disk := t.disk)
  {
    if n > 0 {
      LiveStages(s, r, n - 1);
    }
  }

  /** _finish_normal_swap */
  method FinishNormalSwap(store: Store, k: Hash, sha256: Bytes -> Bytes, s: State) returns (consolidate: bool)
    requires store.Stands(s) && InStep(s) && k in s.mem.swaps
    modifies store.db, store.db.storage
    ensures store.Stands(Provider.FinishNormalSwap(s, k, sha256, consolidate).0)
    ensures InStep(Provider.FinishNormalSwap(s, k, sha256, consolidate).0)
  {
    hide Store.StandsFor, Settle;
    consolidate := false;
    var swap := s.mem.swaps[k];
    if swap.preimage.Some? && swap.preimage.value != [] && k in s.mem.invoices {
      var (inv, ok) := Settle(s.mem.invoices[k], swap.preimage.value, sha256);
      store.Touch(k, InvoiceValue(inv, store.text), inv, s);
      if ok {
        consolidate := CleanUp(store, k, swap.prepayHash, Touch(s, k, inv));
      }
    }
  }

  /** What is removed once a normal swap is settled. */
  function CleanedUp(s: State, k: Hash, prepayHash: Option<Hash>, consolidate: bool): State
  {
    var s2 := Provider.DropHoldInvoice(s, k);
    var s3 := if prepayHash.Some? then Provider.DropHoldInvoice(s2, prepayHash.value) else s2;
    var s4 := PopPreimage(s3, k);
    Write(PopSwap(s4.(watching := s4.watching - {k}), k), consolidate)
  }

  method CleanUp(store: Store, k: Hash, prepayHash: Option<Hash>, s: State) returns (consolidate: bool)
    requires store.Stands(s) && InStep(s) && k in s.mem.swaps
    modifies store.db, store.db.storage
    ensures store.Stands(CleanedUp(s, k, prepayHash, consolidate)) && InStep(CleanedUp(s, k, prepayHash, consolidate))
  {
    hide Store.StandsFor;
    DropHoldInvoice(store, k, s);
    var t := Provider.DropHoldInvoice(s, k);
    if prepayHash.Some? {
      DropHoldInvoice(store, prepayHash.value, t);
      t := Provider.DropHoldInvoice(t, prepayHash.value);
    }
    store.PopPreimage(k, t);
    store.PopSwap(k, PopPreimage(t, k));
    consolidate := store.Write(PopSwap(PopPreimage(t, k), k));
  }

  /** The end of _claim_swap: the signed transaction is recorded as the spending one. */
  method SignClaim(store: Store, k: Hash, o: Observation, txo: Txo, locktime: int, revealed: Bytes, s: State)
    requires store.Stands(s) && InStep(s) && k in s.mem.swaps
    modifies store.db
    ensures var t := Provider.SignClaim(s, k, o, txo, locktime, revealed).state; store.Stands(t) && InStep(t)
  {
    hide Store.StandsFor;
    if txo.spent.None? && txo.value - o.claimFee >= DUST_THRESHOLD {
      SetSpendingTxid(store, k, o.claimTxid, s);
    }
  }

  method RefundIfDue(store: Store, k: Hash, o: Observation, txo: Txo, s: State)
    requires store.Stands(s) && InStep(s) && k in s.mem.swaps
    modifies store.db
    ensures var t := Provider.RefundIfDue(s, k, o, txo).state; store.Stands(t) && InStep(t)
  {
    hide Store.StandsFor, Provider.SignClaim;
    var swap := s.mem.swaps[k];
    if swap.lock.locktime - o.height <= 0 && (swap.preimage.None? || swap.preimage.value == []) {
      SignClaim(store, k, o, txo, swap.lock.locktime, [], s);
    }
  }

  method ClaimNormal(store: Store, k: Hash, o: Observation, txo: Txo, sha256: Bytes -> Bytes, s: State)
    returns (consolidate: bool)
    requires store.Stands(s) && InStep(s) && k in s.mem.swaps
    modifies store.db, store.db.storage
    ensures var t := Provider.ClaimNormal(s, k, o, txo, sha256, consolidate).state; store.Stands(t) && InStep(t)
  {
    hide Store.StandsFor, Provider.FailSwap, Provider.FinishNormalSwap, Provider.RefundIfDue, FindPreimage;
    consolidate := false;
    var swap := s.mem.swaps[k];
    var search :=
      if swap.preimage.None? && txo.spent.Some? then FindPreimage(txo.spent.value.inputs, k, sha256) else Missing;
    if swap.preimage.Some? || txo.spent.None? {
      RefundIfDue(store, k, o, txo, s);
    } else if search.Found? {
      SetRevealed(store, k, search.preimage, s);
      consolidate := FinishNormalSwap(store, k, sha256, SetSwap(s, k, swap.(preimage := Some(search.preimage))));
    } else if search.Missing? && txo.spent.value.height >= 2 {
      SetRedeemed(store, k, s);
      var redeemed := swap.(isRedeemed := true);
      consolidate := FailSwap(store, k, redeemed, SetSwap(s, k, redeemed));
    } else if search.Missing? && txo.spent.value.height != 0 {
      RefundIfDue(store, k, o, txo, s);
    }
  }

  method ClaimReverse(store: Store, k: Hash, o: Observation, txo: Txo, sha256: Bytes -> Bytes, s: State)
    requires store.Stands(s) && InStep(s) && k in s.mem.swaps
    modifies store.db
    ensures var t := Provider.ClaimReverse(s, k, o, txo, sha256).state; store.Stands(t) && InStep(t)
  {
    hide Store.StandsFor, Provider.SignClaim;
    var swap := s.mem.swaps[k];
    if swap.preimage.Some? {
      SignClaim(store, k, o, txo, 0, swap.preimage.value, s);
    } else if k in s.mem.preimages && sha256(s.mem.preimages[k]) == k {
      var p := s.mem.preimages[k];
      SetRevealed(store, k, p, s);
      SignClaim(store, k, o, txo, 0, p, SetSwap(s, k, swap.(preimage := Some(p))));
    }
  }

  /** What the funding output tells about the swap. */
  method RecordOutput(store: Store, k: Hash, txo: Txo, s: State)
    requires store.Stands(s) && InStep(s) && k in s.mem.swaps
    modifies store.db
    ensures var t := SetSwap(s, k, Observed(s.mem.swaps[k], txo)); store.Stands(t) && InStep(t)
  {
    hide Store.StandsFor;
    SetFundingTxid(store, k, txo.txid, s);
    if txo.spent.Some? {
      var funded := s.mem.swaps[k].(fundingTxid := Some(txo.txid));
      SetSpendingTxid(store, k, txo.spent.value.txid, SetSwap(s, k, funded));
      SetTwice(s, k, funded, Observed(s.mem.swaps[k], txo));
    }
  }

  /** delete_finished_reverse_swap, with is_redeemed set. */
  method DeleteFinished(store: Store, k: Hash, s: State) returns (consolidate: bool)
    requires store.Stands(s) && InStep(s) && k in s.mem.swaps
    modifies store.db, store.db.storage
    ensures store.Stands(Provider.DeleteFinished(s, k, consolidate))
            && InStep(Provider.DeleteFinished(s, k, consolidate))
  {
    hide Store.StandsFor;
    store.PopSwap(k, s);
    consolidate := store.Write(PopSwap(s, k));
  }

  method ClaimFunded(store: Store, k: Hash, o: Observation, txo: Txo, sha256: Bytes -> Bytes, s: State)
    returns (consolidate: bool)
    requires store.Stands(s) && InStep(s) && k in s.mem.swaps
    modifies store.db, store.db.storage
    ensures var t := Provider.ClaimFunded(s, k, o, txo, sha256, consolidate).state; store.Stands(t) && InStep(t)
  {
    hide Store.StandsFor, Provider.ClaimNormal, Provider.ClaimReverse, Provider.DeleteFinished, Observed;
    RecordOutput(store, k, txo, s);
    var t := SetSwap(s, k, Observed(s.mem.swaps[k], txo));
    if txo.spent.Some? && txo.spent.value.height > 0
       && o.height - txo.spent.value.height > REDEEM_AFTER_DOUBLE_SPENT_DELAY {
      SetRedeemed(store, k, t);
      consolidate := DeleteFinished(store, k, SetSwap(t, k, t.mem.swaps[k].(isRedeemed := true)));
    } else if t.mem.swaps[k].isReverse {
      consolidate := false;
      ClaimReverse(store, k, o, txo, sha256, t);
    } else {
      consolidate := ClaimNormal(store, k, o, txo, sha256, t);
    }
  }

  /** _claim_swap */
  method ClaimSwap(store: Store, k: Hash, o: Observation, sha256: Bytes -> Bytes, s: State) returns (consolidate: bool)
    requires store.Stands(s) && InStep(s) && k in s.mem.swaps
    modifies store.db, store.db.storage
    ensures var t := Provider.ClaimSwap(s, k, o, sha256, consolidate).state; store.Stands(t) && InStep(t)
  {
    hide Store.StandsFor, FirstUsable, Provider.FailSwap, Provider.ClaimFunded;
    consolidate := false;
    var swap := s.mem.swaps[k];
    if o.upToDate {
      match FirstUsable(swap, o.txos) {
        case None =>
          if swap.lock.locktime - o.height <= 0 {
            consolidate := FailSwap(store, k, swap, s);
          }
        case Some(txo) =>
          consolidate := ClaimFunded(store, k, o, txo, sha256, s);
      }
    }
  }
}
