/** How the HTLCs of hold invoices move over the steps of a run: forward only, in the live tree as long as the process
    lives, and on disk always. */
module ProviderMoves {
  import opened Common
  import opened Invoices
  import opened LockScript
  import opened Provider
  import opened ProviderRuns
  import opened ProviderInvariant
  import opened ProviderSteps
  import opened ProviderSettles
  import opened ProviderCreates
  import opened ProviderSafety

  // ---- Operations ----

  predicate InvoicesMove(a: map<Hash, InvoiceRecord>, b: map<Hash, InvoiceRecord>, added: set<Hash>)
  {
    && b.Keys <= a.Keys + added
    && forall h :: h in b && h !in added ==> MovedOn(a[h].htlcs, b[h].htlcs)
  }

  /** From s to t no HTLC was added, taken away or unresolved; only the invoices in `added` are new. */
  predicate Moves(s: State, t: State, added: set<Hash>)
  {
    && t.mem.invoices.Keys == t.tracked.invoices.Keys
    && InvoicesMove(s.mem.invoices, t.mem.invoices, added)
    && InvoicesMove(s.tracked.invoices, t.tracked.invoices, added)
  }

  lemma MovedOnTransitive(a: seq<HtlcRecord>, b: seq<HtlcRecord>, c: seq<HtlcRecord>)
    requires MovedOn(a, b) && MovedOn(b, c)
    ensures MovedOn(a, c)
  {
    ExtendsTransitive(a, b, c);
  }

  lemma StoredMovedOn(a: seq<HtlcRecord>, b: seq<HtlcRecord>)
    requires MovedOn(a, b)
    ensures MovedOn(a, StoredHtlcs(b))
  {
    forall i | 0 <= i < |a| ensures SameHtlc(a[i], StoredHtlcs(b)[i]) {
      assert SameHtlc(a[i], b[i]);
    }
  }

  lemma MovesSelf(s: State)
    requires Linked(s)
    ensures Moves(s, s, {})
  {
  }

  /** A method call on a live invoice. */
  lemma TouchMoves(s: State, t: State, added: set<Hash>, h: Hash, inv: InvoiceRecord)
    requires Moves(s, t, added) && h in t.mem.invoices && MovedOn(t.mem.invoices[h].htlcs, inv.htlcs)
    ensures Moves(s, Touch(t, h, inv), added)
  {
    if h !in added {
      MovedOnTransitive(s.mem.invoices[h].htlcs, t.mem.invoices[h].htlcs, inv.htlcs);
    }
  }

  /** Saving a live invoice that moved on, or a new one. */
  lemma SetInvoiceMoves(s: State, t: State, added: set<Hash>, h: Hash, inv: InvoiceRecord)
    requires Linked(s) && Moves(s, t, added)
    requires h in added || (h in t.mem.invoices && MovedOn(t.mem.invoices[h].htlcs, inv.htlcs))
    ensures Moves(s, SetInvoice(t, h, inv), added)
  {
    if h !in added {
      MovedOnTransitive(s.mem.invoices[h].htlcs, t.mem.invoices[h].htlcs, inv.htlcs);
      MovedOnTransitive(s.tracked.invoices[h].htlcs, s.mem.invoices[h].htlcs, inv.htlcs);
      StoredMovedOn(s.tracked.invoices[h].htlcs, inv.htlcs);
    }
  }

  lemma WriteMoves(s: State, t: State, added: set<Hash>, consolidate: bool)
    requires Linked(s) && Moves(s, t, added)
    ensures Moves(s, Write(t, consolidate), added)
  {
    if consolidate {
      forall h | h in t.mem.invoices && h !in added
        ensures MovedOn(s.tracked.invoices[h].htlcs, Stored(t.mem.invoices[h]).htlcs)
      {
        MovedOnTransitive(s.tracked.invoices[h].htlcs, s.mem.invoices[h].htlcs, t.mem.invoices[h].htlcs);
        StoredMovedOn(s.tracked.invoices[h].htlcs, t.mem.invoices[h].htlcs);
      }
    }
  }

  lemma DropMoves(s: State, t: State, added: set<Hash>, h: Hash)
    requires Moves(s, t, added)
    ensures Moves(s, DropHoldInvoice(t, h), added)
  {
  }

  lemma SameInvoicesMove(s: State, t: State, u: State, added: set<Hash>)
    requires Moves(s, t, added)
    requires u.mem.invoices == t.mem.invoices && u.tracked.invoices == t.tracked.invoices
    ensures Moves(s, u, added)
  {
  }

  lemma SettleMovesOn(inv: InvoiceRecord, p: Bytes, sha256: Bytes -> Bytes)
    ensures MovedOn(inv.htlcs, Settle(inv, p, sha256).0.htlcs)
  {
    SettleDerives(inv, p, sha256);
  }

  lemma ExpiryMoves(s: State, k: Hash, now: int, consolidate: bool)
    requires Linked(s)
    ensures Moves(s, CheckInvoiceExpiry(s, k, now, consolidate).state, {})
  {
    hide Linked, CancelAll, Moves, Write, Touch, DropHoldInvoice;
    MovesSelf(s);
    if k in s.mem.invoices {
      var inv := s.mem.invoices[k];
      if inv.createdAt + inv.expiry < now && inv.status !in {FUNDED, SETTLED} {
        CancelledIsDerived(inv);
        TouchMoves(s, s, {}, k, CancelAll(inv).0);
        var t := Touch(s, k, CancelAll(inv).0);
        DropMoves(s, t, {}, k);
        WriteMoves(s, DropHoldInvoice(t, k), {}, consolidate);
      }
    }
  }

  lemma SettlePrepayMoves(s: State, k: Hash, sha256: Bytes -> Bytes, consolidate: bool)
    requires Linked(s) && k in s.mem.invoices
    ensures Moves(s, SettlePrepay(s, k, sha256, consolidate).state, {})
  {
    hide Linked, Settle, Moves, Write, SetInvoice, MovedOn;
    MovesSelf(s);
    if s.mem.invoices[k].associated.Some? && s.mem.invoices[k].associated.value in s.mem.invoices
       && s.mem.invoices[k].associated.value in s.mem.preimages {
      var q := s.mem.invoices[k].associated.value;
      var inv := Settle(s.mem.invoices[q], s.mem.preimages[q], sha256).0;
      SettleMovesOn(s.mem.invoices[q], s.mem.preimages[q], sha256);
      TouchMoves(s, s, {}, q, inv);
      SetInvoiceMoves(s, s, {}, q, inv);
      WriteMoves(s, SetInvoice(s, q, inv), {}, consolidate);
      UpdateOfTouch(s, q, inv, consolidate);
    }
  }

  lemma FailSwapMoves(s: State, t: State, k: Hash, swap: Swap, consolidate: bool)
    requires Linked(s) && Moves(s, t, {})
    ensures Moves(s, FailSwap(t, k, swap, consolidate).0, {})
  {
    hide Linked, Moves, Write;
    var t1 := t.(watching := t.watching - {k}, toPay := t.toPay - {k});
    SameInvoicesMove(s, t, t1, {});
    SameInvoicesMove(s, t, PopSwap(t1, k), {});
    WriteMoves(s, t1, {}, consolidate);
    WriteMoves(s, PopSwap(t1, k), {}, consolidate);
  }

  lemma CallbackMoves(s: State, t: State, k: Hash, f: FundingResult, consolidate: bool)
    requires Linked(s) && Moves(s, t, {})
    ensures Moves(s, HoldInvoiceCallback(t, k, f, consolidate).state, {})
  {
    hide Linked, Moves, FailSwap;
    if k in t.mem.swaps {
      var swap := t.mem.swaps[k];
      FailSwapMoves(s, t, k, swap, consolidate);
      if f.SendFails? || f.Sent? {
        var swap' := swap.(fundingTxid := Some(f.txid));
        SameInvoicesMove(s, t, SetSwap(t, k, swap'), {});
        FailSwapMoves(s, SetSwap(t, k, swap'), k, swap', consolidate);
      }
    }
  }

  lemma TurnMoves(
    s: State, k: Hash, f: FundingResult, sha256: Bytes -> Bytes, consolidate: bool, consolidateOnFail: bool)
    requires Linked(s)
    ensures Moves(s, CallbackTurn(s, k, f, sha256, consolidate, consolidateOnFail).state, {})
  {
    hide Linked, Moves, SettlePrepay, HoldInvoiceCallback;
    MovesSelf(s);
    var t := CallbackTurn(s, k, f, sha256, consolidate, consolidateOnFail).state;
    if k !in s.mem.invoices || !s.mem.invoices[k].status.FUNDED? {
      SameInvoicesMove(s, s, t, {});
    } else {
      var p := SettlePrepay(s, k, sha256, consolidate).state;
      SettlePrepayMoves(s, k, sha256, consolidate);
      CallbackMoves(s, p, k, f, consolidateOnFail);
      var r := HoldInvoiceCallback(p, k, f, consolidateOnFail).state;
      if SettlePrepay(s, k, sha256, consolidate).proceed {
        SameInvoicesMove(s, r, t, {});
      } else {
        SameInvoicesMove(s, p, t, {});
      }
    }
  }

  lemma FinishMoves(s: State, t: State, k: Hash, sha256: Bytes -> Bytes, consolidate: bool)
    requires Linked(s) && Moves(s, t, {}) && k in t.mem.swaps
    ensures Moves(s, FinishNormalSwap(t, k, sha256, consolidate).0, {})
  {
    hide Linked, Moves, Settle, Touch, DropHoldInvoice, PopPreimage, PopSwap, Write, MovedOn;
    var swap := t.mem.swaps[k];
    if swap.preimage.Some? && k in t.mem.invoices {
      var p := swap.preimage.value;
      var inv := Settle(t.mem.invoices[k], p, sha256).0;
      SettleMovesOn(t.mem.invoices[k], p, sha256);
      TouchMoves(s, t, {}, k, inv);
      CleanUpMoves(s, Touch(t, k, inv), k, swap.prepayHash, consolidate);
    }
  }

  lemma CleanUpMoves(s: State, t: State, k: Hash, prepayHash: Option<Hash>, consolidate: bool)
    requires Linked(s) && Moves(s, t, {})
    ensures var t2 := DropHoldInvoice(t, k);
            var t3 := if prepayHash.Some? then DropHoldInvoice(t2, prepayHash.value) else t2;
            var t4 := PopPreimage(t3, k);
            Moves(s, Write(PopSwap(t4.(watching := t4.watching - {k}), k), consolidate), {})
  {
    hide Linked, Moves, DropHoldInvoice, Write;
    var t2 := DropHoldInvoice(t, k);
    DropMoves(s, t, {}, k);
    var t3 := if prepayHash.Some? then DropHoldInvoice(t2, prepayHash.value) else t2;
    if prepayHash.Some? {
      DropMoves(s, t2, {}, prepayHash.value);
    }
    var t4 := PopPreimage(t3, k);
    var t5 := PopSwap(t4.(watching := t4.watching - {k}), k);
    SameInvoicesMove(s, t3, t5, {});
    WriteMoves(s, t5, {}, consolidate);
  }

  lemma ClaimNormalMoves(
    s: State, t: State, k: Hash, o: Observation, txo: Txo, sha256: Bytes -> Bytes, consolidate: bool)
    requires Linked(s) && Moves(s, t, {}) && k in t.mem.swaps
    ensures Moves(s, ClaimNormal(t, k, o, txo, sha256, consolidate).state, {})
  {
    hide Linked, Moves, FailSwap, FinishNormalSwap, FindPreimage;
    var swap := t.mem.swaps[k];
    var redeemed := swap.(isRedeemed := true);
    SameInvoicesMove(s, t, SetSwap(t, k, redeemed), {});
    FailSwapMoves(s, SetSwap(t, k, redeemed), k, redeemed, consolidate);
    SameInvoicesMove(s, t, SignClaim(t, k, o, txo, swap.lock.locktime, []).state, {});
    if txo.spent.Some? {
      var search := FindPreimage(txo.spent.value.inputs, k, sha256);
      if search.Found? {
        var t1 := SetSwap(t, k, swap.(preimage := Some(search.preimage)));
        SameInvoicesMove(s, t, t1, {});
        FinishMoves(s, t1, k, sha256, consolidate);
      }
    }
  }

  lemma ClaimReverseMoves(s: State, t: State, k: Hash, o: Observation, txo: Txo, sha256: Bytes -> Bytes)
    requires Moves(s, t, {}) && k in t.mem.swaps
    ensures Moves(s, ClaimReverse(t, k, o, txo, sha256).state, {})
  {
    hide Moves;
    SameInvoicesMove(s, t, ClaimReverse(t, k, o, txo, sha256).state, {});
  }

  lemma ClaimMoves(s: State, k: Hash, o: Observation, sha256: Bytes -> Bytes, consolidate: bool)
    requires Linked(s) && k in s.mem.swaps
    ensures Moves(s, ClaimSwap(s, k, o, sha256, consolidate).state, {})
  {
    hide Linked, Moves, FirstUsable, FailSwap, ClaimNormal, ClaimReverse, Write;
    MovesSelf(s);
    var swap := s.mem.swaps[k];
    match FirstUsable(swap, o.txos) {
      case None => FailSwapMoves(s, s, k, swap, consolidate);
      case Some(txo) =>
        var seen := Observed(swap, txo);
        var s1 := SetSwap(s, k, seen);
        SameInvoicesMove(s, s, s1, {});
        var s2 := SetSwap(s1, k, seen.(isRedeemed := true));
        var s3 := PopSwap(s2.(watching := s2.watching - {k}, toPay := s2.toPay - {k}), k);
        SameInvoicesMove(s, s, s3, {});
        WriteMoves(s, s3, {}, consolidate);
        ClaimReverseMoves(s, s1, k, o, txo, sha256);
        ClaimNormalMoves(s, s1, k, o, txo, sha256, consolidate);
    }
  }

  lemma {:induction false} CreateMoves(s: State, r: Request, n: nat, consolidate: bool)
    requires Linked(s) && n <= CreateLimit(r)
    ensures Moves(s, CreateStages(s, r, n, consolidate), {r.paymentHash, r.prepayHash})
  {
    hide Linked, Moves, Write, SetInvoice;
    var added := {r.paymentHash, r.prepayHash};
    if n == 0 {
      MovesSelf(s);
      MoreAdded(s, s, added);
    } else {
      CreateMoves(s, r, n - 1, consolidate);
      var t := CreateStages(s, r, n - 1, consolidate);
      if n == 2 {
        SameInvoicesMove(s, t, SetPreimage(t, r.prepayHash, r.prepayPreimage), added);
        WriteMoves(s, SetPreimage(t, r.prepayHash, r.prepayPreimage), added, consolidate);
      } else if n == 5 {
        SameInvoicesMove(s, t, CreateStages(s, r, n, consolidate), added);
      } else {
        var h := if n == 3 then r.prepayHash else r.paymentHash;
        var inv := if n == 1 then NewInvoice(h, r.main, MainSat(r), r.now)
                   else if n == 3 then NewInvoice(h, r.prepay, r.prepaySat, r.now)
                   else NewInvoice(h, r.main, MainSat(r), r.now).(associated := Some(r.prepayHash));
        SetInvoiceMoves(s, t, added, h, inv);
        WriteMoves(s, SetInvoice(t, h, inv), added, consolidate);
      }
    }
  }

  lemma MoreAdded(s: State, t: State, added: set<Hash>)
    requires Moves(s, t, {})
    ensures Moves(s, t, added)
  {
  }

  // ---- Steps ----

  /** The steps in which the process dies and starts again. */
  predicate Restarts(st: Step)
  {
    st.Crash? || st.CreateInterrupted? || st.TurnInterrupted? || st.ClaimInterrupted?
  }

  /** What the process had done when it died. */
  ghost function Before(env: Env, w: World, s: State, st: Step): State
    requires Enabled(env, w, s, st) && Restarts(st)
  {
    match st
    case CreateInterrupted(r, _, _, n, c) => CreateStages(s, r, n, c)
    case TurnInterrupted(k, isSaved, c) => if isSaved then SettlePrepay(s, k, env.sha256, c).state else s
    case _ => s
  }

  ghost function AddedBy(st: Step): set<Hash>
  {
    match st
    case Create(r, _, _, _) => {r.paymentHash, r.prepayHash}
    case CreateInterrupted(r, _, _, _, _) => {r.paymentHash, r.prepayHash}
    case _ => {}
  }

  /** What a step adds was unknown before. */
  lemma AddedIsNew(env: Env, w: World, s: State, st: Step)
    requires Inv(env, w, s) && Enabled(env, w, s, st)
    ensures AddedBy(st) !! s.mem.invoices.Keys
  {
    hide Inv;
    if st.Create? || st.CreateInterrupted? {
      UnusedIsUnknown(env, w, s, st.r.paymentHash);
      UnusedIsUnknown(env, w, s, st.r.prepayHash);
    }
  }

  lemma BeforeMoves(env: Env, w: World, s: State, st: Step)
    requires Inv(env, w, s) && Enabled(env, w, s, st) && Restarts(st)
    ensures var p := Before(env, w, s, st);
            Moves(s, p, AddedBy(st)) && Linked(p) && p.disk.invoices == p.tracked.invoices
            && Next(env, w, s, st).1 == Restart(p)
  {
    hide WorldOk, ImageOk, TablesOk, Linked, Moves, CreateStages, SettlePrepay, Restart, GoodRequest;
    MovesSelf(s);
    match st {
      case CreateInterrupted(r, fees, h, n, c) =>
        CreateMoves(s, r, n, c);
        CreateGood(env, w, s, r, fees, h, n, c);
      case TurnInterrupted(k, _, c) =>
        SettlePrepayMoves(s, k, env.sha256, c);
        SettlePrepayGood(env, w, s, k, c);
      case _ =>
    }
  }

  /** A step of the living process, other than the arrival of an HTLC. */
  lemma StepMoves(env: Env, w: World, s: State, st: Step)
    requires Inv(env, w, s) && Enabled(env, w, s, st) && !Restarts(st) && !st.HtlcStep?
    ensures Moves(s, Next(env, w, s, st).1, AddedBy(st))
  {
    hide WorldOk, ImageOk, TablesOk, Linked, Moves, CreateStages, CallbackTurn, ClaimSwap, CheckInvoiceExpiry,
         GoodRequest;
    MovesSelf(s);
    var s' := Next(env, w, s, st).1;
    match st {
      case Create(r, _, _, c) => CreateMoves(s, r, CreateLimit(r), c);
      case TurnStep(k, f, c1, c2) =>
        TurnMoves(s, k, f, env.sha256, c1, c2);
        SameInvoicesMove(s, CallbackTurn(s, k, f, env.sha256, c1, c2).state, s', {});
      case ExpiryStep(k, now, c) => ExpiryMoves(s, k, now, c);
      case ClaimStep(k, o, c) => ClaimMoves(s, k, o, env.sha256, c);
      case _ => SameInvoicesMove(s, s, s', {});
    }
  }

  predicate AllExtend(a: map<Hash, InvoiceRecord>, b: map<Hash, InvoiceRecord>)
  {
    forall h :: h in a && h in b ==> Extends(a[h].htlcs, b[h].htlcs)
  }

  /** Saving a live invoice that has more HTLCs, or more resolved ones. */
  lemma SaveExtends(s: State, k: Hash, inv: InvoiceRecord, consolidate: bool)
    requires Linked(s) && k in s.mem.invoices && Extends(s.mem.invoices[k].htlcs, inv.htlcs)
    ensures var s' := Write(SetInvoice(s, k, inv), consolidate);
            AllExtend(s.mem.invoices, s'.mem.invoices) && AllExtend(s.tracked.invoices, s'.tracked.invoices)
  {
    hide Extends;
    ghost var s' := Write(SetInvoice(s, k, inv), consolidate);
    ExtendsStoredForward(inv.htlcs);
    ExtendsTransitive(s.tracked.invoices[k].htlcs, s.mem.invoices[k].htlcs, inv.htlcs);
    ExtendsTransitive(s.tracked.invoices[k].htlcs, inv.htlcs, StoredHtlcs(inv.htlcs));
    forall h | h in s.tracked.invoices && h in s'.tracked.invoices
      ensures Extends(s.tracked.invoices[h].htlcs, s'.tracked.invoices[h].htlcs)
    {
      StoredMovedOn(s.tracked.invoices[h].htlcs, s.mem.invoices[h].htlcs);
      ExtendsSelf(s.tracked.invoices[h].htlcs);
    }
    forall h | h in s.mem.invoices ensures Extends(s.mem.invoices[h].htlcs, s'.mem.invoices[h].htlcs) {
      ExtendsSelf(s.mem.invoices[h].htlcs);
    }
  }

  lemma ExtendsStoredForward(hs: seq<HtlcRecord>)
    ensures Extends(hs, StoredHtlcs(hs))
  {
  }

  lemma ExtendsSelf(hs: seq<HtlcRecord>)
    ensures Extends(hs, hs)
  {
  }

  /** The arrival of an HTLC, new or replayed. */
  lemma HtlcExtends(s: State, k: Hash, inc: Incoming, decodeOk: bool, now: int, consolidate: bool)
    requires Linked(s)
    ensures var s' := HtlcAccepted(s, k, inc, decodeOk, now, consolidate);
            AllExtend(s.mem.invoices, s'.mem.invoices) && AllExtend(s.tracked.invoices, s'.tracked.invoices)
  {
    hide HandleHtlc, Extends, Linked, Write;
    forall h | h in s.mem.invoices ensures Extends(s.mem.invoices[h].htlcs, s.mem.invoices[h].htlcs) {
      ExtendsSelf(s.mem.invoices[h].htlcs);
    }
    forall h | h in s.tracked.invoices ensures Extends(s.tracked.invoices[h].htlcs, s.tracked.invoices[h].htlcs) {
      ExtendsSelf(s.tracked.invoices[h].htlcs);
    }
    if k in s.mem.invoices {
      HandleHtlcExtends(s.mem.invoices[k], inc, decodeOk, now);
      var inv' := HandleHtlc(s.mem.invoices[k], inc, decodeOk, now).0;
      SaveExtends(s, k, inv', consolidate);
      UpdateOfTouch(s, k, inv', consolidate);
    }
  }

  lemma MovesExtend(s: State, t: State, added: set<Hash>)
    requires Moves(s, t, added) && Linked(s) && added !! s.mem.invoices.Keys
    ensures AllExtend(s.mem.invoices, t.mem.invoices) && AllExtend(s.tracked.invoices, t.tracked.invoices)
  {
  }

  lemma StepExtends(env: Env, w: World, s: State, st: Step)
    requires Inv(env, w, s) && Enabled(env, w, s, st) && !Restarts(st)
    ensures var s' := Next(env, w, s, st).1;
            AllExtend(s.mem.invoices, s'.mem.invoices) && AllExtend(s.tracked.invoices, s'.tracked.invoices)
  {
    hide WorldOk, ImageOk, TablesOk, Linked, Moves, AllExtend, HtlcAccepted, CreateStages, CallbackTurn, ClaimSwap,
         CheckInvoiceExpiry;
    if st.HtlcStep? {
      HtlcExtends(s, st.k, st.inc, st.decodeOk, st.now, st.consolidate);
    } else {
      StepMoves(env, w, s, st);
      AddedIsNew(env, w, s, st);
      MovesExtend(s, Next(env, w, s, st).1, AddedBy(st));
    }
  }

  // ---- What it means ----

  /** As long as the process lives, no HTLC of a live hold invoice leaves SETTLED or CANCELLED, and none disappears from
      an invoice that stays. */
  lemma LiveHtlcsStayResolved(env: Env, w: World, s: State, st: Step)
    requires Reachable(env, w, s) && Enabled(env, w, s, st) && !Restarts(st)
    ensures AllExtend(s.mem.invoices, Next(env, w, s, st).1.mem.invoices)
  {
    hide Inv, Next, AllExtend, Possible, RunOf;
    ReachableInv(env, w, s);
    StepExtends(env, w, s, st);
  }

  /** On disk none ever does, whether the process lives or dies. */
  lemma DurableHtlcsStayResolved(env: Env, w: World, s: State, st: Step)
    requires Reachable(env, w, s) && Enabled(env, w, s, st)
    ensures AllExtend(s.disk.invoices, Next(env, w, s, st).1.disk.invoices)
  {
    hide Inv, Next, AllExtend, Possible, RunOf;
    ReachableInv(env, w, s);
    DurableStep(env, w, s, st);
  }

  lemma DurableStep(env: Env, w: World, s: State, st: Step)
    requires Inv(env, w, s) && Enabled(env, w, s, st)
    ensures AllExtend(s.disk.invoices, Next(env, w, s, st).1.disk.invoices)
  {
    hide Next, AllExtend, WorldOk, ImageOk, Linked, TablesOk, Moves, Restart;
    StepKeepsInv(env, w, s, st);
    if Restarts(st) {
      BeforeMoves(env, w, s, st);
      AddedIsNew(env, w, s, st);
      MovesExtend(s, Before(env, w, s, st), AddedBy(st));
      RestartReads(Before(env, w, s, st));
    } else {
      StepExtends(env, w, s, st);
    }
  }

  lemma RestartReads(s: State)
    ensures Restart(s).disk == s.disk && Restart(s).mem.invoices == s.disk.invoices
  {
  }

  /** An HTLC that was resolved in the live tree and is not, or not so, afterwards. */
  predicate Regresses(a: seq<HtlcRecord>, b: seq<HtlcRecord>, i: nat)
    requires i < |a| && |a| == |b|
  {
    !a[i].state.Accepted? && b[i].state != a[i].state
  }

  /** A turn for k gets to the save of the prepay invoice it settled. */
  predicate SettlesPrepay(env: Env, s: State, k: Hash)
    requires k in s.mem.invoices
  {
    match s.mem.invoices[k].associated
    case None => false
    case Some(q) =>
      && q in s.mem.invoices && s.mem.invoices[q].status.FUNDED? && AllAttached(s.mem.invoices[q].htlcs)
      && q in s.mem.preimages && env.sha256(s.mem.preimages[q]) == q
  }

  /** Whether the live invoice at h was saved by the step in which the process died: every one is when the step had
      consolidated the database, and otherwise only the prepay invoice that it settled. */
  predicate SavedBy(env: Env, s: State, st: Step, h: Hash)
  {
    match st
    case CreateInterrupted(_, _, _, n, consolidate) => n > 0 && consolidate
    case TurnInterrupted(k, isSaved, consolidate) =>
      && isSaved && k in s.mem.invoices && SettlesPrepay(env, s, k)
      && (consolidate || s.mem.invoices[k].associated == Some(h))
    case _ => false
  }

  /** When the process dies, exactly those HTLCs of a live hold invoice regress that are still ACCEPTED on disk, unless
      the step in which it died had saved the invoice. */
  lemma RegressesExactlyWhen(env: Env, w: World, s: State, st: Step, h: Hash)
    requires Reachable(env, w, s) && Enabled(env, w, s, st) && Restarts(st) && h in s.mem.invoices
    ensures var s' := Next(env, w, s, st).1;
            && h in s.disk.invoices && h in s'.mem.invoices
            && var a, d, b := s.mem.invoices[h].htlcs, s.disk.invoices[h].htlcs, s'.mem.invoices[h].htlcs;
               && |a| == |d| == |b|
               && (forall i :: 0 <= i < |a| ==> SameHtlc(a[i], b[i]))
               && (forall i :: 0 <= i < |a| ==>
                     (Regresses(a, b, i) <==> !a[i].state.Accepted? && d[i].state.Accepted? && !SavedBy(env, s, st, h)))
  {
    hide Next, Possible, RunOf, WorldOk, ImageOk, TablesOk, Restart, Before, SavedBy;
    ReachableInv(env, w, s);
    BeforeMoves(env, w, s, st);
    AddedIsNew(env, w, s, st);
    RestartReads(Before(env, w, s, st));
    BeforeSaves(env, w, s, st, h);
  }

  /** What the interrupted step left on disk of an invoice that was there before. */
  lemma BeforeSaves(env: Env, w: World, s: State, st: Step, h: Hash)
    requires Inv(env, w, s) && Enabled(env, w, s, st) && Restarts(st) && h in s.mem.invoices
    ensures var disk := Before(env, w, s, st).disk.invoices;
            && h in disk && h in s.disk.invoices
            && (if SavedBy(env, s, st, h) then MovedOn(s.mem.invoices[h].htlcs, disk[h].htlcs)
                else disk[h] == s.disk.invoices[h])
  {
    hide WorldOk, ImageOk, TablesOk, CreateStages, SettlePrepay, GoodRequest, MovedOn, LockBytes, SettlesPrepay,
         Observable,
         AfterCreate, AfterSettle, AfterClaim;
    AddedIsNew(env, w, s, st);
    match st {
      case CreateInterrupted(r, _, _, n, c) =>
        CreateSaves(s, r, n, c, h);
        SelfMovedOn(s.mem.invoices[h].htlcs);
      case TurnInterrupted(k, _, c) => SettleSaves(env, w, s, k, c, h);
      case _ =>
    }
  }

  /** From s to t the live invoice at h stayed as it was, and its copy on disk became its stored form or stayed too. */
  predicate SavedAlone(s: State, t: State, h: Hash, isSaved: bool)
    requires h in s.mem.invoices && h in s.tracked.invoices
  {
    && h in t.mem.invoices && t.mem.invoices[h] == s.mem.invoices[h]
    && h in t.tracked.invoices && h in t.disk.invoices && t.disk.invoices[h] == t.tracked.invoices[h]
    && t.tracked.invoices[h] == if isSaved then Stored(s.mem.invoices[h]) else s.tracked.invoices[h]
  }

  lemma {:induction false} CreateSaves(s: State, r: Request, n: nat, consolidate: bool, h: Hash)
    requires Linked(s) && s.disk.invoices == s.tracked.invoices && n <= CreateLimit(r)
    requires h in s.mem.invoices && h !in {r.paymentHash, r.prepayHash}
    ensures SavedAlone(s, CreateStages(s, r, n, consolidate), h, n > 0 && consolidate)
  {
    if n > 0 {
      CreateSaves(s, r, n - 1, consolidate, h);
      StageSaves(s, CreateStages(s, r, n - 1, consolidate), r, n, consolidate, h);
    }
  }

  lemma StageSaves(s: State, t: State, r: Request, n: nat, consolidate: bool, h: Hash)
    requires h in s.mem.invoices && h in s.tracked.invoices && h !in {r.paymentHash, r.prepayHash}
    requires 0 < n <= CreateLimit(r) && SavedAlone(s, t, h, n > 1 && consolidate)
    ensures SavedAlone(s, NextStage(t, r, n, consolidate), h, consolidate)
  {
    hide NewInvoice, Stored;
  }

  lemma SelfMovedOn(hs: seq<HtlcRecord>)
    ensures MovedOn(hs, StoredHtlcs(hs))
  {
  }

  lemma SettleSaves(env: Env, w: World, s: State, k: Hash, consolidate: bool, h: Hash)
    requires Inv(env, w, s) && k in s.mem.invoices && h in s.mem.invoices
    ensures var disk := SettlePrepay(s, k, env.sha256, consolidate).state.disk.invoices;
            && h in disk && h in s.disk.invoices
            && (if SettlesPrepay(env, s, k) && (consolidate || s.mem.invoices[k].associated == Some(h))
                then MovedOn(s.mem.invoices[h].htlcs, disk[h].htlcs)
                else disk[h] == s.disk.invoices[h])
  {
    hide WorldOk, TablesOk, MovedOn, WellFormed, MainOk, PrepayOk, IsFullyFunded;
    if s.mem.invoices[k].associated.Some? && s.mem.invoices[k].associated.value in s.mem.invoices
       && s.mem.invoices[k].associated.value in s.mem.preimages {
      var q := s.mem.invoices[k].associated.value;
      var p := s.mem.preimages[q];
      InvoiceOfImage(env, w, s.mem, q);
      FullyFundedIsFunded(s.mem.invoices[q]);
      SettleMovesOn(s.mem.invoices[q], p, env.sha256);
      StoredMovedOn(s.mem.invoices[q].htlcs, Settle(s.mem.invoices[q], p, env.sha256).0.htlcs);
      SelfMovedOn(s.mem.invoices[h].htlcs);
    }
  }

  // ---- Whole runs ----

  /** The keys of the invoices are the same everywhere, and were all used. */
  lemma InvoiceKeys(env: Env, w: World, s: State)
    requires Inv(env, w, s)
    ensures s.mem.invoices.Keys == s.disk.invoices.Keys <= w.used
  {
    forall h | h in s.mem.invoices ensures h in w.used {
      InvoiceOfImage(env, w, s.mem, h);
      InvoiceHashIsUsed(env, w, h, s.mem.invoices[h]);
    }
  }

  /** Only a new request adds an invoice. */
  lemma StepKeys(env: Env, w: World, s: State, st: Step)
    requires Inv(env, w, s) && Enabled(env, w, s, st)
    ensures Next(env, w, s, st).1.disk.invoices.Keys <= s.disk.invoices.Keys + AddedBy(st)
    ensures w.used <= Next(env, w, s, st).0.used && AddedBy(st) !! w.used
  {
    hide WorldOk, ImageOk, Linked, TablesOk, AfterSettle, Restart, Moves, CreateStages, CallbackTurn, ClaimSwap,
         CheckInvoiceExpiry, SettlePrepay, HandleHtlc, Before;
    StepKeepsHistory(env, w, s, st);
    AddedIsUnused(env, w, s, st);
    InvoiceKeys(env, w, s);
    if Restarts(st) {
      BeforeMoves(env, w, s, st);
      MovesKeys(s, Before(env, w, s, st), AddedBy(st));
      RestartReads(Before(env, w, s, st));
    } else {
      StepKeepsInv(env, w, s, st);
      InvoiceKeys(env, Next(env, w, s, st).0, Next(env, w, s, st).1);
      if !st.HtlcStep? {
        StepMoves(env, w, s, st);
        MovesKeys(s, Next(env, w, s, st).1, AddedBy(st));
      }
    }
  }

  lemma MovesKeys(s: State, t: State, added: set<Hash>)
    requires Moves(s, t, added) && Linked(s)
    ensures t.mem.invoices.Keys == t.tracked.invoices.Keys <= s.mem.invoices.Keys + added
  {
  }

  lemma AddedIsUnused(env: Env, w: World, s: State, st: Step)
    requires Enabled(env, w, s, st)
    ensures AddedBy(st) !! w.used
  {
    hide LockBytes, Spends, RefundSpend, Observable;
  }

  /** An invoice that was deleted never comes back. */
  lemma {:induction false} GoneStaysGone(env: Env, w: World, s: State, steps: seq<Step>, h: Hash)
    requires Inv(env, w, s) && Possible(env, w, s, steps) && h in w.used && h !in s.disk.invoices
    ensures h !in RunOf(env, w, s, steps).1.disk.invoices
    decreases |steps|
  {
    hide Inv, Next, Enabled;
    if steps != [] {
      StepKeepsInv(env, w, s, steps[0]);
      StepKeys(env, w, s, steps[0]);
      var (w', s') := Next(env, w, s, steps[0]);
      GoneStaysGone(env, w', s', steps[1..], h);
    }
  }

  /** Over every run, with crashes anywhere: no HTLC of an invoice on disk leaves SETTLED or CANCELLED, and none
      disappears as long as the invoice is there. */
  lemma {:induction false} RunKeepsResolved(env: Env, w: World, s: State, steps: seq<Step>, h: Hash)
    requires Inv(env, w, s) && Possible(env, w, s, steps)
    requires h in s.disk.invoices && h in RunOf(env, w, s, steps).1.disk.invoices
    ensures Extends(s.disk.invoices[h].htlcs, RunOf(env, w, s, steps).1.disk.invoices[h].htlcs)
    decreases |steps|
  {
    hide Inv, Next, Enabled, Extends;
    if steps == [] {
      ExtendsSelf(s.disk.invoices[h].htlcs);
    } else {
      StepKeepsInv(env, w, s, steps[0]);
      DurableStep(env, w, s, steps[0]);
      InvoiceKeys(env, w, s);
      StepKeys(env, w, s, steps[0]);
      var (w', s') := Next(env, w, s, steps[0]);
      if h !in s'.disk.invoices {
        GoneStaysGone(env, w', s', steps[1..], h);
      } else {
        RunKeepsResolved(env, w', s', steps[1..], h);
        ExtendsTransitive(s.disk.invoices[h].htlcs, s'.disk.invoices[h].htlcs,
                          RunOf(env, w', s', steps[1..]).1.disk.invoices[h].htlcs);
      }
    }
  }
}
