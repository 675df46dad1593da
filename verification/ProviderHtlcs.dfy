/** What becomes of the HTLCs that arrive for hold invoices: which are accepted, and that each of them is answered or
    still waits. */
module ProviderHtlcs {
  import opened Common
  import opened Invoices
  import opened LockScript
  import opened Provider
  import opened ProviderRuns
  import opened ProviderInvariant
  import opened ProviderClaims
  import opened ProviderCreates
  import opened ProviderSafety
  import opened ProviderSettlement
  import opened ProviderMoves

  // ---- Which HTLCs are accepted ----

  /** In every reachable state and every image: an HTLC that is ACCEPTED or SETTLED arrived with the payment secret
      of its invoice, which decodepay could read, and with the blocks left that the invoice and the provider ask
      for. */
  lemma AcceptedWereVetted(env: Env, w: World, s: State, im: Image, h: Hash, i: nat)
    requires Reachable(env, w, s) && im in {s.mem, s.tracked, s.disk}
    requires h in im.invoices && i < |im.invoices[h].htlcs| && im.invoices[h].htlcs[i].state in {Accepted, Settled}
    ensures var b := im.invoices[h].bolt11;
            var id := IdOf(h, im.invoices[h].htlcs[i]);
            && id in w.arrivals && w.arrivals[id].decodeOk && w.arrivals[id].secret == Some(b.paymentSecret)
            && w.arrivals[id].cltvRelative >= b.minFinalCltv && w.arrivals[id].cltvRelative >= 144
  {
    hide Reachable, ImageOk, Linked, TablesOk, WellFormed, WorldOk;
    ReachableInv(env, w, s);
    InvoiceOfImage(env, w, im, h);
    hide Inv;
    assert Vetted(w, h, im.invoices[h].bolt11, im.invoices[h].htlcs[i]);
  }

  /** The HTLC is not one of those that are stored. */
  predicate IsNew(hs: seq<HtlcRecord>, inc: Incoming)
  {
    forall i :: 0 <= i < |hs| ==>
      (hs[i].scid, hs[i].channelId, hs[i].amountMsat) != (inc.scid, inc.channelId, inc.amountMsat)
  }

  /** The HTLC that becomes of a new one, with the record of the invoice it is for: ACCEPTED, with its request
      waiting, if and only if the invoice can be decoded and is UNFUNDED, the HTLC leaves enough blocks and carries
      the payment secret; otherwise CANCELLED, and failed at once. */
  function Judged(inv: InvoiceRecord, inc: Incoming, decodeOk: bool, now: int): HtlcRecord
  {
    var good := decodeOk && inv.status.UNFUNDED? && inc.cltvRelative >= inv.bolt11.minFinalCltv
                && inc.cltvRelative >= 144 && inc.secret == Some(inv.bolt11.paymentSecret);
    HtlcRecord(if good then Accepted else Cancelled, inc.scid, inc.channelId, inc.amountMsat, now,
               if good then Pending else Answered(FailWith("400F")))
  }

  /** The invoice with it; it becomes FUNDED exactly if the HTLC was accepted and the sum is reached. */
  function WithNew(inv: InvoiceRecord, h: HtlcRecord): InvoiceRecord
  {
    var hs := inv.htlcs + [h];
    inv.(htlcs := hs,
         status := if h.state.Accepted? && CountedMsat(hs) >= inv.amountMsat then FUNDED else inv.status)
  }

  lemma HandleNew(inv: InvoiceRecord, inc: Incoming, decodeOk: bool, now: int)
    requires IsNew(inv.htlcs, inc)
    ensures FindHtlc(inv.htlcs, FromCln(inc, now)).None?
    ensures HandleHtlc(inv, inc, decodeOk, now) == (WithNew(inv, Judged(inv, inc, decodeOk, now)), true)
  {
    assert FindHtlc(inv.htlcs, FromCln(inc, now)).None?;
    hide FindHtlc, CountedMsat;
  }

  lemma HtlcSaved(s: State, k: Hash, inc: Incoming, decodeOk: bool, now: int, consolidate: bool)
    requires k in s.mem.invoices && HandleHtlc(s.mem.invoices[k], inc, decodeOk, now).1
    ensures var s' := HtlcAccepted(s, k, inc, decodeOk, now, consolidate);
            var inv' := HandleHtlc(s.mem.invoices[k], inc, decodeOk, now).0;
            && k in s'.mem.invoices && s'.mem.invoices[k] == inv'
            && k in s'.disk.invoices && s'.disk.invoices[k] == Stored(inv')
  {
    hide HandleHtlc, Stored;
  }

  /** A new HTLC is stored behind the others as it is judged, live and on disk, and how it arrived is on record. */
  lemma NewHtlcExactlyWhen(env: Env, w: World, s: State, st: Step)
    requires Enabled(env, w, s, st) && st.HtlcStep?
    requires st.k in s.mem.invoices && IsNew(s.mem.invoices[st.k].htlcs, st.inc)
    ensures var s' := Next(env, w, s, st).1;
            var inv := s.mem.invoices[st.k];
            var inv' := WithNew(inv, Judged(inv, st.inc, st.decodeOk, st.now));
            && st.k in s'.mem.invoices && s'.mem.invoices[st.k] == inv'
            && st.k in s'.disk.invoices && s'.disk.invoices[st.k] == Stored(inv')
    ensures var id := (st.k, st.inc.scid, st.inc.channelId, st.inc.amountMsat);
            var w' := Next(env, w, s, st).0;
            id in w'.arrivals
            && w'.arrivals[id] == Arrival(st.expiry, st.inc.cltvRelative, st.inc.secret, st.decodeOk)
  {
    hide Stored, AnswersOf, HandleHtlc, FindHtlc, Judged, WithNew, HtlcAccepted;
    HandleNew(s.mem.invoices[st.k], st.inc, st.decodeOk, st.now);
    HtlcSaved(s, st.k, st.inc, st.decodeOk, st.now, st.consolidate);
  }

  // ---- Waiting and answered ----

  /** The HTLC is stored as ACCEPTED. */
  predicate Waiting(k: Hash, hs: seq<HtlcRecord>, id: HtlcId)
  {
    exists i :: 0 <= i < |hs| && IdOf(k, hs[i]) == id && hs[i].state.Accepted?
  }

  predicate Waits(im: Image, id: HtlcId)
  {
    id.0 in im.invoices && Waiting(id.0, im.invoices[id.0].htlcs, id)
  }

  ghost predicate HasAnswer(w: World, id: HtlcId)
  {
    exists a :: (id, a) in w.answers
  }

  /** The HTLC paid the prepay invoice of a swap that was claimed, from whoever funded it, without the provider ever
      having sent its funding transaction, and that is over. */
  predicate Abandoned(env: Env, w: World, im: Image, id: HtlcId)
  {
    && id.0 in w.prepayments
    && var k := w.prepayments[id.0];
       k in w.terms && Claimed(env, w, k) && k !in w.fundings && k !in im.invoices
  }

  ghost predicate Accounted(env: Env, w: World, im: Image, id: HtlcId)
  {
    HasAnswer(w, id) || Waits(im, id) || Abandoned(env, w, im, id)
  }

  ghost predicate AllAccounted(env: Env, w: World, s: State)
  {
    forall id :: id in w.arrivals ==> id.0 in w.used && Accounted(env, w, s.mem, id)
  }

  // ---- One invoice ----

  /** The HTLCs of before are still there, and those that were ACCEPTED still are, or were answered. */
  predicate Handled(a: seq<HtlcRecord>, b: seq<HtlcRecord>)
  {
    && |a| <= |b|
    && forall i :: 0 <= i < |a| ==>
         SameHtlc(a[i], b[i]) && (a[i].state.Accepted? ==> b[i].state.Accepted? || b[i].callback.Answered?)
  }

  lemma ResolveAllHandles(hs: seq<HtlcRecord>, a: Answer)
    ensures Handled(hs, ResolveAll(hs, a))
    ensures AllAttached(hs) ==> !Has(ResolveAll(hs, a), Accepted)
  {
    FirstStuckIsEnd(hs);
  }

  lemma SettleHandles(inv: InvoiceRecord, p: Bytes, sha256: Bytes -> Bytes)
    ensures var (inv', ok) := Settle(inv, p, sha256);
            Handled(inv.htlcs, inv'.htlcs) && (ok ==> !Has(inv'.htlcs, Accepted))
  {
    ResolveAllHandles(inv.htlcs, ResolveWith(p));
  }

  lemma CancelHandles(inv: InvoiceRecord)
    ensures var (inv', ok) := CancelAll(inv);
            Handled(inv.htlcs, inv'.htlcs) && (ok ==> !Has(inv'.htlcs, Accepted))
  {
    ResolveAllHandles(inv.htlcs, FAIL_DETAILS);
  }

  /** handle_htlc loses no HTLC, and what it adds waits or is answered. */
  lemma HandleHtlcHandles(k: Hash, inv: InvoiceRecord, inc: Incoming, decodeOk: bool, now: int)
    ensures var inv' := HandleHtlc(inv, inc, decodeOk, now).0;
            && Handled(inv.htlcs, inv'.htlcs)
            && (FindHtlc(inv.htlcs, FromCln(inc, now)).None? ==>
                  |inv'.htlcs| == |inv.htlcs| + 1
                  && var h := inv'.htlcs[|inv.htlcs|];
                     IdOf(k, h) == (k, inc.scid, inc.channelId, inc.amountMsat)
                     && (h.state.Accepted? || h.callback.Answered?))
  {
  }

  /** Once the answers of an invoice are recorded, an HTLC that waited in it still does, or has an answer. */
  lemma ToldOrWaiting(w: World, k: Hash, a: seq<HtlcRecord>, inv': InvoiceRecord, id: HtlcId)
    requires Handled(a, inv'.htlcs) && Waiting(k, a, id)
    ensures HasAnswer(Told(w, k, Some(inv')), id) || Waiting(k, inv'.htlcs, id)
  {
    var b := inv'.htlcs;
    var i :| 0 <= i < |a| && IdOf(k, a[i]) == id && a[i].state.Accepted?;
    assert SameHtlc(a[i], b[i]) && IdOf(k, b[i]) == id;
    if b[i].callback.Answered? {
      assert (id, b[i].callback.answer) in AnswersOf(k, b);
    }
  }

  lemma ToldOf(w: World, k: Hash, inv: InvoiceRecord, i: nat)
    requires i < |inv.htlcs| && inv.htlcs[i].callback.Answered?
    ensures HasAnswer(Told(w, k, Some(inv)), IdOf(k, inv.htlcs[i]))
  {
    assert (IdOf(k, inv.htlcs[i]), inv.htlcs[i].callback.answer) in AnswersOf(k, inv.htlcs);
  }

  // ---- One operation ----

  /** Every HTLC that waits in one image does so in the other, or was answered. */
  ghost predicate Keeps(w: World, a: Image, b: Image)
  {
    forall id :: Waits(a, id) ==> HasAnswer(w, id) || Waits(b, id)
  }

  lemma SameInvoicesKeep(w: World, a: Image, b: Image)
    requires forall h :: h in a.invoices ==> h in b.invoices && b.invoices[h] == a.invoices[h]
    ensures Keeps(w, a, b)
  {
    forall id | Waits(a, id) ensures HasAnswer(w, id) || Waits(b, id) {
      assert Waits(b, id);
    }
  }

  /** One invoice was handled and its answers are recorded; it is as it says afterwards, or gone without an ACCEPTED
      HTLC. */
  lemma HandledKeeps(w: World, a: Image, b: Image, k: Hash, inv': InvoiceRecord)
    requires k in a.invoices && Handled(a.invoices[k].htlcs, inv'.htlcs)
    requires AnswersOf(k, inv'.htlcs) <= w.answers
    requires forall h :: h in a.invoices && h != k ==> h in b.invoices && b.invoices[h] == a.invoices[h]
    requires if k in b.invoices then b.invoices[k] == inv' else !Has(inv'.htlcs, Accepted)
    ensures Keeps(w, a, b)
  {
    hide AnswersOf;
    forall id | Waits(a, id) ensures HasAnswer(w, id) || Waits(b, id) {
      if id.0 == k {
        ToldOrWaiting(w, k, a.invoices[k].htlcs, inv', id);
        assert Told(w, k, Some(inv')).answers == w.answers;
      } else {
        assert Waits(b, id);
      }
    }
  }

  lemma TurnInvoices(
    s: State, k: Hash, f: FundingResult, sha256: Bytes -> Bytes, consolidate: bool, consolidateOnFail: bool)
    ensures var t := CallbackTurn(s, k, f, sha256, consolidate, consolidateOnFail);
            && t.state.mem.invoices == (if t.settled.Some? then s.mem.invoices[PrepayOf(s, k) := t.settled.value]
                                        else s.mem.invoices)
            && (t.settled.Some? ==> PrepayOf(s, k) in s.mem.invoices
                                    && Handled(s.mem.invoices[PrepayOf(s, k)].htlcs, t.settled.value.htlcs))
            && (t.attempted ==> k in s.mem.invoices)
  {
    hide HoldInvoiceCallback;
    if k in s.mem.invoices && s.mem.invoices[k].status.FUNDED? {
      SettlePrepayInvoices(s, k, sha256, consolidate);
      CallbackInvoices(SettlePrepay(s, k, sha256, consolidate).state, k, f, consolidateOnFail);
    }
  }

  lemma SettlePrepayInvoices(s: State, k: Hash, sha256: Bytes -> Bytes, consolidate: bool)
    requires k in s.mem.invoices
    ensures var p := SettlePrepay(s, k, sha256, consolidate);
            && p.state.mem.invoices == (if p.settled.Some? then s.mem.invoices[PrepayOf(s, k) := p.settled.value]
                                        else s.mem.invoices)
            && (p.settled.Some? ==> PrepayOf(s, k) in s.mem.invoices
                                    && Handled(s.mem.invoices[PrepayOf(s, k)].htlcs, p.settled.value.htlcs))
  {
    hide Settle, Handled;
    var q := PrepayOf(s, k);
    if q in s.mem.invoices && q in s.mem.preimages {
      SettleHandles(s.mem.invoices[q], s.mem.preimages[q], sha256);
      UpdateOfTouch(s, q, Settle(s.mem.invoices[q], s.mem.preimages[q], sha256).0, consolidate);
    }
  }

  lemma CallbackInvoices(s: State, k: Hash, f: FundingResult, consolidate: bool)
    ensures HoldInvoiceCallback(s, k, f, consolidate).state.mem.invoices == s.mem.invoices
  {
  }

  /** The invoices after a run of _claim_swap that settles, or tries to. */
  predicate ClaimLeaves(s: State, k: Hash, b: map<Hash, InvoiceRecord>, inv': InvoiceRecord)
    requires k in s.mem.swaps
  {
    && k in s.mem.invoices && Handled(s.mem.invoices[k].htlcs, inv'.htlcs)
    && (b == s.mem.invoices[k := inv']
        || (!Has(inv'.htlcs, Accepted)
            && b == s.mem.invoices - {k} - if s.mem.swaps[k].prepayHash.Some? then {s.mem.swaps[k].prepayHash.value}
               else {}))
  }

  lemma FinishInvoices(s: State, k: Hash, sha256: Bytes -> Bytes, consolidate: bool)
    requires k in s.mem.swaps
    ensures var (s', o, settled) := FinishNormalSwap(s, k, sha256, consolidate);
            if settled.Some? then ClaimLeaves(s, k, s'.mem.invoices, settled.value)
            else s'.mem.invoices == s.mem.invoices
  {
    hide Settle, Handled;
    var swap := s.mem.swaps[k];
    if swap.preimage.Some? && k in s.mem.invoices {
      SettleHandles(s.mem.invoices[k], swap.preimage.value, sha256);
      var inv' := Settle(s.mem.invoices[k], swap.preimage.value, sha256).0;
      assert s.mem.invoices[k := inv'] - {k} == s.mem.invoices - {k};
      assert s.mem.invoices - {k} - {} == s.mem.invoices - {k};
    }
  }

  lemma ClaimInvoices(s: State, k: Hash, o: Observation, sha256: Bytes -> Bytes, consolidate: bool)
    requires k in s.mem.swaps
    ensures var r := ClaimSwap(s, k, o, sha256, consolidate);
            if r.settled.Some? then ClaimLeaves(s, k, r.state.mem.invoices, r.settled.value)
            else r.state.mem.invoices == s.mem.invoices
  {
    hide FirstUsable, FindPreimage, FinishNormalSwap, Has, Handled;
    if FirstUsable(s.mem.swaps[k], o.txos).Some? {
      var txo := FirstUsable(s.mem.swaps[k], o.txos).value;
      var s1 := SetSwap(s, k, Observed(s.mem.swaps[k], txo));
      if txo.spent.Some? && FindPreimage(txo.spent.value.inputs, k, sha256).Found? {
        var p := FindPreimage(txo.spent.value.inputs, k, sha256).preimage;
        FinishInvoices(SetSwap(s1, k, s1.mem.swaps[k].(preimage := Some(p))), k, sha256, consolidate);
      }
    }
  }

  // ---- One step ----

  /** Terms, lockup outputs and the role of each prepay invoice are as before. */
  predicate SameChain(w: World, w': World)
  {
    w'.terms == w.terms && w'.lockups == w.lockups && w'.prepayments == w.prepayments
  }

  lemma AfterSettleChain(w: World, s: State, q: Hash, settled: Option<InvoiceRecord>)
    ensures var w' := AfterSettle(w, s, q, settled);
            && SameChain(w, w') && w'.fundings == w.fundings && w'.arrivals == w.arrivals
            && (settled.Some? ==> AnswersOf(q, settled.value.htlcs) <= w'.answers)
  {
    hide Reveals;
  }

  lemma AfterClaimChain(env: Env, w: World, s: State, k: Hash, o: Observation, consolidate: bool)
    requires k in s.mem.swaps
    ensures var w' := AfterClaim(env, w, s, k, o, consolidate);
            var settled := ClaimSwap(s, k, o, env.sha256, consolidate).settled;
            && SameChain(w, w') && w'.fundings == w.fundings && w'.arrivals == w.arrivals
            && (settled.Some? ==> AnswersOf(k, settled.value.htlcs) <= w'.answers)
  {
    hide ClaimSwap, AfterSettle, AnswersOf;
    AfterSettleChain(w, s, k, ClaimSwap(s, k, o, env.sha256, consolidate).settled);
  }

  /** The answers given to the HTLCs of the invoice that one arrived for are on record. */
  lemma HtlcTold(env: Env, w: World, s: State, st: Step)
    requires Enabled(env, w, s, st) && st.HtlcStep? && st.k in s.mem.invoices
    ensures var inv' := HandleHtlc(s.mem.invoices[st.k], st.inc, st.decodeOk, st.now).0;
            var (w', s') := Next(env, w, s, st);
            && s'.mem.invoices == s.mem.invoices[st.k := inv']
            && AnswersOf(st.k, inv'.htlcs) <= w'.answers
  {
    hide HandleHtlc, HtlcAccepted, AnswersOf, FindHtlc;
    HtlcInvoices(s, st.k, st.inc, st.decodeOk, st.now, st.consolidate);
  }

  lemma HtlcKeeps(env: Env, w: World, s: State, st: Step)
    requires Enabled(env, w, s, st) && st.HtlcStep?
    ensures var (w', s') := Next(env, w, s, st); Keeps(w', s.mem, s'.mem)
  {
    var (w', s') := Next(env, w, s, st);
    if st.k !in s.mem.invoices {
      hide Told, Arrived;
      SameInvoicesKeep(w', s.mem, s'.mem);
    } else {
      var inv := s.mem.invoices[st.k];
      HtlcTold(env, w, s, st);
      HandleHtlcHandles(st.k, inv, st.inc, st.decodeOk, st.now);
      hide HandleHtlc, HtlcAccepted, Handled, Next, AnswersOf;
      HandledKeeps(w', s.mem, s'.mem, st.k, HandleHtlc(inv, st.inc, st.decodeOk, st.now).0);
    }
  }

  /** What arrives is answered or waits. */
  lemma ArrivalAccounted(env: Env, w: World, s: State, st: Step, id: HtlcId)
    requires Enabled(env, w, s, st) && st.HtlcStep?
    requires id in Next(env, w, s, st).0.arrivals && id !in w.arrivals
    ensures var (w', s') := Next(env, w, s, st);
            id.0 in s.mem.invoices && (HasAnswer(w', id) || Waits(s'.mem, id))
  {
    var (w', s') := Next(env, w, s, st);
    var inv := s.mem.invoices[st.k];
    var inv', n := HandleHtlc(inv, st.inc, st.decodeOk, st.now).0, |inv.htlcs|;
    HtlcTold(env, w, s, st);
    HandleHtlcHandles(st.k, inv, st.inc, st.decodeOk, st.now);
    hide HandleHtlc, HtlcAccepted, Handled, AnswersOf, FindHtlc;
    assert IdOf(st.k, inv'.htlcs[n]) == id;
    if inv'.htlcs[n].callback.Answered? {
      ToldOf(w', st.k, inv', n);
      assert Told(w', st.k, Some(inv')).answers == w'.answers;
    }
  }

  lemma HtlcInvoices(s: State, k: Hash, inc: Incoming, decodeOk: bool, now: int, consolidate: bool)
    requires k in s.mem.invoices
    ensures HtlcAccepted(s, k, inc, decodeOk, now, consolidate).mem.invoices
         == s.mem.invoices[k := HandleHtlc(s.mem.invoices[k], inc, decodeOk, now).0]
  {
    hide HandleHtlc;
    UpdateOfTouch(s, k, HandleHtlc(s.mem.invoices[k], inc, decodeOk, now).0, consolidate);
  }

  lemma ExpiryKeeps(w: World, s: State, k: Hash, now: int, consolidate: bool)
    ensures var e := CheckInvoiceExpiry(s, k, now, consolidate);
            Keeps(Told(w, k, e.cancelled), s.mem, e.state.mem)
  {
    hide CancelAll, AnswersOf, Handled;
    var e := CheckInvoiceExpiry(s, k, now, consolidate);
    var w' := Told(w, k, e.cancelled);
    if e.cancelled.None? {
      SameInvoicesKeep(w', s.mem, e.state.mem);
    } else {
      CancelHandles(s.mem.invoices[k]);
      HandledKeeps(w', s.mem, e.state.mem, k, e.cancelled.value);
    }
  }

  lemma TurnKeeps(env: Env, w: World, s: State, st: Step)
    requires Enabled(env, w, s, st) && st.TurnStep?
    ensures var (w', s') := Next(env, w, s, st);
            Keeps(w', s.mem, s'.mem)
  {
    hide CallbackTurn, AfterSettle, Handled, AnswersOf;
    var t := CallbackTurn(s, st.k, st.f, env.sha256, st.consolidate, st.consolidateOnFail);
    var (w', s') := Next(env, w, s, st);
    TurnInvoices(s, st.k, st.f, env.sha256, st.consolidate, st.consolidateOnFail);
    AfterSettleChain(w, s, PrepayOf(s, st.k), t.settled);
    if t.settled.Some? {
      HandledKeeps(w', s.mem, s'.mem, PrepayOf(s, st.k), t.settled.value);
    } else {
      SameInvoicesKeep(w', s.mem, s'.mem);
    }
  }

  /** The prepay invoice of a funded swap has no ACCEPTED HTLC. */
  lemma FundedPrepayIsDone(env: Env, w: World, im: Image, k: Hash)
    requires WorldOk(env, w) && ImageOk(env, w, im) && k in w.fundings
    ensures k in w.terms
    ensures w.terms[k].request.prepayHash in im.invoices ==>
              !Has(im.invoices[w.terms[k].request.prepayHash].htlcs, Accepted)
  {
    assert FundedOk(env, w, im, k);
    if w.terms[k].request.prepayHash in im.invoices {
      InvoiceOfImage(env, w, im, w.terms[k].request.prepayHash);
    }
  }

  /** What a run of _claim_swap takes away was answered, but for the prepay invoice of a swap that was never funded. */
  lemma ClaimCarries(env: Env, w: World, s: State, k: Hash, o: Observation, consolidate: bool, id: HtlcId)
    requires Inv(env, w, s) && Observable(w, s, k, o) && Waits(s.mem, id)
    ensures var w' := AfterClaim(env, w, s, k, o, consolidate);
            var b := ClaimSwap(s, k, o, env.sha256, consolidate).state.mem;
            HasAnswer(w', id) || Waits(b, id)
            || (s.mem.swaps[k].prepayHash == Some(id.0) && k !in w.fundings && Abandoned(env, w', b, id))
  {
    var r := ClaimSwap(s, k, o, env.sha256, consolidate);
    var w' := AfterClaim(env, w, s, k, o, consolidate);
    if r.settled.Some? {
      SettleMeansClaimed(env, w, s, k, o, consolidate);
      SettleMeansFound(s, k, o, env.sha256, consolidate);
      SwapOfImage(env, w, s.mem, k);
      RolesOf(env, w, k);
    }
    AfterClaimChain(env, w, s, k, o, consolidate);
    ClaimInvoices(s, k, o, env.sha256, consolidate);
    hide ClaimSwap, AfterClaim, Handled, AnswersOf, WorldOk, ImageOk, Linked, TablesOk;
    if r.settled.None? {
      SameInvoicesKeep(w', s.mem, r.state.mem);
    } else {
      SameClaim(env, w, w', k);
      ClaimLeavesCarries(env, w, w', s, k, r.state.mem, r.settled.value, id);
    }
  }

  lemma ClaimLeavesCarries(
    env: Env, w: World, w': World, s: State, k: Hash, b: Image, inv': InvoiceRecord, id: HtlcId)
    requires WorldOk(env, w) && ImageOk(env, w, s.mem) && SameChain(w, w') && w'.fundings == w.fundings
    requires k in w.terms && Claimed(env, w', k) && k in s.mem.swaps && Waits(s.mem, id)
    requires s.mem.swaps[k].prepayHash == Some(w.terms[k].request.prepayHash)
    requires var q := w.terms[k].request.prepayHash; q in w.prepayments && w.prepayments[q] == k
    requires ClaimLeaves(s, k, b.invoices, inv') && AnswersOf(k, inv'.htlcs) <= w'.answers
    ensures HasAnswer(w', id) || Waits(b, id)
            || (s.mem.swaps[k].prepayHash == Some(id.0) && k !in w.fundings && Abandoned(env, w', b, id))
  {
    hide Claimed, Handled, AnswersOf, WorldOk, ImageOk;
    var q := w.terms[k].request.prepayHash;
    if b.invoices == s.mem.invoices[k := inv'] {
      HandledKeeps(w', s.mem, b, k, inv');
    } else {
      var c := s.mem.(invoices := s.mem.invoices - {k});
      HandledKeeps(w', s.mem, c, k, inv');
      if id.0 == q && k in w.fundings {
        FundedPrepayIsDone(env, w, s.mem, k);
      } else if Waits(c, id) && id.0 != q {
        assert Waits(b, id);
      }
    }
  }

  // ---- The other steps ----

  /** An HTLC that waits in the live tree waits on disk too. */
  lemma DiskKeeps(w: World, s: State)
    requires Linked(s) && s.disk.invoices == s.tracked.invoices
    ensures Keeps(w, s.mem, s.disk) && Keeps(w, s.mem, s.tracked)
    ensures forall id :: Waits(s.mem, id) ==> Waits(s.disk, id) && Waits(s.tracked, id)
  {
    forall id | Waits(s.mem, id) ensures Waits(s.disk, id) && Waits(s.tracked, id) {
      var k := id.0;
      var hs := s.mem.invoices[k].htlcs;
      var i :| 0 <= i < |hs| && IdOf(k, hs[i]) == id && hs[i].state.Accepted?;
      assert MovedOn(s.tracked.invoices[k].htlcs, hs);
      assert SameHtlc(s.tracked.invoices[k].htlcs[i], hs[i]);
      assert IdOf(k, s.tracked.invoices[k].htlcs[i]) == id;
    }
  }

  lemma CreateKeeps(w: World, s: State, r: Request, n: nat, consolidate: bool)
    requires Linked(s) && s.disk.invoices == s.tracked.invoices && n <= CreateLimit(r)
    requires r.paymentHash !in s.mem.invoices && r.prepayHash !in s.mem.invoices
    ensures Keeps(w, s.mem, CreateStages(s, r, n, consolidate).mem)
  {
    var t := CreateStages(s, r, n, consolidate);
    forall h | h in s.mem.invoices ensures h in t.mem.invoices && t.mem.invoices[h] == s.mem.invoices[h] {
      CreateSaves(s, r, n, consolidate, h);
    }
    hide Waits, CreateStages;
    SameInvoicesKeep(w, s.mem, t.mem);
  }

  lemma KeepsTwice(w: World, a: Image, b: Image, c: Image)
    requires Keeps(w, a, b) && Keeps(w, b, c)
    ensures Keeps(w, a, c)
  {
    hide Waits, HasAnswer;
  }

  lemma SettledKeeps(w: World, s: State, k: Hash, sha256: Bytes -> Bytes, consolidate: bool)
    requires k in s.mem.invoices
    ensures var p := SettlePrepay(s, k, sha256, consolidate);
            Keeps(AfterSettle(w, s, PrepayOf(s, k), p.settled), s.mem, p.state.mem)
  {
    hide SettlePrepay, AfterSettle, Handled, AnswersOf;
    var p := SettlePrepay(s, k, sha256, consolidate);
    var w' := AfterSettle(w, s, PrepayOf(s, k), p.settled);
    SettlePrepayInvoices(s, k, sha256, consolidate);
    AfterSettleChain(w, s, PrepayOf(s, k), p.settled);
    if p.settled.Some? {
      HandledKeeps(w', s.mem, p.state.mem, PrepayOf(s, k), p.settled.value);
    } else {
      SameInvoicesKeep(w', s.mem, p.state.mem);
    }
  }

  /** What the process had done when it died. */
  lemma BeforeKeeps(env: Env, w: World, s: State, st: Step)
    requires Inv(env, w, s) && Enabled(env, w, s, st) && Restarts(st)
    ensures Keeps(Next(env, w, s, st).0, s.mem, Before(env, w, s, st).mem)
  {
    hide WorldOk, ImageOk, Linked, TablesOk, CreateStages, SettlePrepay, AfterSettle, AfterClaim, ClaimSwap, Restart,
         GoodRequest, Keeps, LockBytes, Spends, RefundSpend;
    AddedIsNew(env, w, s, st);
    var w' := Next(env, w, s, st).0;
    SameInvoicesKeep(w', s.mem, s.mem);
    match st {
      case CreateInterrupted(r, _, _, n, c) => CreateKeeps(w', s, r, n, c);
      case TurnInterrupted(k, isSaved, c) => SettledKeeps(w, s, k, env.sha256, c);
      case _ =>
    }
  }

  lemma RestartKeeps(env: Env, w: World, s: State, st: Step)
    requires Inv(env, w, s) && Enabled(env, w, s, st) && Restarts(st)
    ensures var (w', s') := Next(env, w, s, st); Keeps(w', s.mem, s'.mem)
  {
    hide Inv, Next, Moves, Keeps, Linked, Restart;
    var (w', s') := Next(env, w, s, st);
    var p := Before(env, w, s, st);
    BeforeKeeps(env, w, s, st);
    BeforeMoves(env, w, s, st);
    DiskKeeps(w', p);
    RestartReads(p);
    SameInvoicesKeep(w', p.disk, s'.mem);
    KeepsTwice(w', s.mem, p.mem, p.disk);
    KeepsTwice(w', s.mem, p.disk, s'.mem);
  }

  /** Steps that leave the live invoices alone. */
  predicate Quiet(st: Step)
  {
    st.Register? || st.CreateRev? || st.StartSweep? || st.NewBlock? || st.Deposit? || st.SpendLockup?
        || st.ConfirmSpend?
  }

  lemma QuietKeeps(env: Env, w: World, s: State, st: Step)
    requires Enabled(env, w, s, st) && Quiet(st)
    ensures var (w', s') := Next(env, w, s, st); Keeps(w', s.mem, s'.mem)
  {
    var (w', s') := Next(env, w, s, st);
    assert s'.mem.invoices == s.mem.invoices;
    hide Waits, Enabled, Next;
    SameInvoicesKeep(w', s.mem, s'.mem);
  }

  /** No step takes an HTLC that waits out of the live tree without answering it, except that a claim takes the prepay
      invoice of a swap with it whose funding was never sent. */
  lemma StepLosesNone(env: Env, w: World, s: State, st: Step, id: HtlcId)
    requires Inv(env, w, s) && Enabled(env, w, s, st) && Waits(s.mem, id)
    ensures var (w', s') := Next(env, w, s, st);
            HasAnswer(w', id) || Waits(s'.mem, id)
            || (st.ClaimStep? && s.mem.swaps[st.k].prepayHash == Some(id.0) && st.k !in w.fundings
                && Abandoned(env, w', s'.mem, id))
  {
    hide Inv, Waits, HasAnswer, Abandoned, CreateStages, CallbackTurn, ClaimSwap, AfterClaim, AfterSettle,
         CheckInvoiceExpiry, HtlcAccepted, Restart, GoodRequest, LockBytes, Spends, RefundSpend, Told, Arrived,
             FindHtlc;
    if Restarts(st) {
      RestartKeeps(env, w, s, st);
    } else if Quiet(st) {
      QuietKeeps(env, w, s, st);
    } else {
      match st {
        case Create(r, _, _, c) => CreatedKeeps(env, w, s, st);
        case HtlcStep(_, _, _, _, _, _) => HtlcKeeps(env, w, s, st);
        case TurnStep(_, _, _, _) => TurnKeeps(env, w, s, st);
        case ExpiryStep(k, now, c) => ExpiryKeeps(w, s, k, now, c);
        case ClaimStep(k, o, c) => ClaimCarries(env, w, s, k, o, c, id);
        case _ =>
      }
    }
  }

  lemma CreatedKeeps(env: Env, w: World, s: State, st: Step)
    requires Inv(env, w, s) && Enabled(env, w, s, st) && st.Create?
    ensures var (w', s') := Next(env, w, s, st); Keeps(w', s.mem, s'.mem)
  {
    AddedIsNew(env, w, s, st);
    hide WorldOk, ImageOk, Linked, CreateStages, GoodRequest, Keeps;
    CreateKeeps(Next(env, w, s, st).0, s, st.r, CreateLimit(st.r), st.consolidate);
  }

  // ---- Every reachable state ----

  /** Steps that change the chain, or the terms of swaps. */
  predicate ChangesChain(st: Step)
  {
    st.NewBlock? || st.Deposit? || st.SpendLockup? || st.ConfirmSpend?
  }

  lemma ToldChain(w: World, k: Hash, after: Option<InvoiceRecord>)
    ensures SameChain(w, Told(w, k, after))
    ensures forall inc, expiry, decodeOk :: SameChain(w, Told(Arrived(w, k, inc, expiry, decodeOk), k, after))
  {
    hide AnswersOf;
  }

  /** The provider's own steps add no lockup output, and only creating a swap adds terms. */
  lemma OwnStepChain(env: Env, w: World, s: State, st: Step)
    requires Enabled(env, w, s, st) && !ChangesChain(st) && !st.Create? && !st.CreateInterrupted?
    ensures SameChain(w, Next(env, w, s, st).0)
  {
    hide CreateStages, CallbackTurn, ClaimSwap, AfterClaim, AfterSettle, AnswersOf, SettlePrepay, CheckInvoiceExpiry,
         HtlcAccepted, Restart, GoodRequest, LockBytes, Spends, RefundSpend, FindHtlc, Told, Arrived, LiveAt;
    match st {
      case TurnStep(t, f, c1, c2) =>
        AfterSettleChain(w, s, PrepayOf(s, t), CallbackTurn(s, t, f, env.sha256, c1, c2).settled);
      case TurnInterrupted(t, _, c) =>
        AfterSettleChain(w, s, PrepayOf(s, t), SettlePrepay(s, t, env.sha256, c).settled);
      case ClaimStep(t, o, c) => AfterClaimChain(env, w, s, t, o, c);
      case ClaimInterrupted(t, o, c) => AfterClaimChain(env, w, s, t, o, c);
      case HtlcStep(k, inc, _, decodeOk, now, c) =>
        ToldChain(w, k, LiveAt(HtlcAccepted(s, k, inc, decodeOk, now, c), k));
      case ExpiryStep(k, now, c) => ToldChain(w, k, CheckInvoiceExpiry(s, k, now, c).cancelled);
      case _ =>
    }
  }

  lemma StepKeepsClaims(env: Env, w: World, s: State, st: Step, k: Hash)
    requires WorldOk(env, w) && Enabled(env, w, s, st) && k in w.terms && Claimed(env, w, k)
    ensures k in Next(env, w, s, st).0.terms && Claimed(env, Next(env, w, s, st).0, k)
  {
    hide Next, Enabled, Claimed, WorldOk;
    if ChangesChain(st) {
      ChainKeepsClaims(env, w, s, st, k);
    } else if st.Create? || st.CreateInterrupted? {
      CreationKeepsClaims(env, w, s, st, k);
    } else {
      OwnStepChain(env, w, s, st);
      SameClaim(env, w, Next(env, w, s, st).0, k);
    }
  }

  lemma CreationKeepsClaims(env: Env, w: World, s: State, st: Step, k: Hash)
    requires WorldOk(env, w) && Enabled(env, w, s, st) && k in w.terms && Claimed(env, w, k)
    requires st.Create? || st.CreateInterrupted?
    ensures k in Next(env, w, s, st).0.terms && Claimed(env, Next(env, w, s, st).0, k)
  {
    hide Claimed, WorldOk, CreateStages, Restart, GoodRequest;
    CreateKeepsClaims(env, w, st.r, st.fees, st.startHeight, k);
  }

  lemma CreateKeepsClaims(env: Env, w: World, r: Request, fees: Fees.Schedule, h: nat, k: Hash)
    requires WorldOk(env, w) && GoodRequest(env, w, r, fees, h) && k in w.terms && Claimed(env, w, k)
    ensures Claimed(env, AfterCreate(w, r, fees), k)
  {
    hide Claimed;
    GoodRequestIsFresh(env, w, r, fees, h);
    AfterCreateLater(env, w, r, fees);
  }

  lemma ChainKeepsClaims(env: Env, w: World, s: State, st: Step, k: Hash)
    requires WorldOk(env, w) && Enabled(env, w, s, st) && k in w.terms && Claimed(env, w, k)
    requires ChangesChain(st)
    ensures k in Next(env, w, s, st).0.terms && Claimed(env, Next(env, w, s, st).0, k)
  {
    hide WorldOk, Claimed, Enabled, Next, LockupsOk, RefundOk, ReverseClaimOk;
    ChainStepGrown(env, w, s, st);
  }

  /** A step sends a funding transaction only for an invoice that is there. */
  lemma StepFundings(env: Env, w: World, s: State, st: Step, k: Hash)
    requires Enabled(env, w, s, st) && k !in s.mem.invoices && k !in w.fundings
    ensures k !in Next(env, w, s, st).0.fundings
  {
    hide CreateStages, CallbackTurn, ClaimSwap, AfterClaim, AfterSettle, AnswersOf, SettlePrepay, CheckInvoiceExpiry,
         HtlcAccepted, Restart, GoodRequest, LockBytes, Spends, RefundSpend, FindHtlc;
    match st {
      case TurnStep(t, f, c1, c2) =>
        AfterSettleChain(w, s, PrepayOf(s, t), CallbackTurn(s, t, f, env.sha256, c1, c2).settled);
        TurnInvoices(s, t, f, env.sha256, c1, c2);
      case TurnInterrupted(t, _, c) =>
        AfterSettleChain(w, s, PrepayOf(s, t), SettlePrepay(s, t, env.sha256, c).settled);
      case ClaimStep(t, o, c) => AfterClaimChain(env, w, s, t, o, c);
      case ClaimInterrupted(t, o, c) => AfterClaimChain(env, w, s, t, o, c);
      case _ =>
    }
  }

  lemma AbandonedStays(env: Env, w: World, s: State, st: Step, id: HtlcId)
    requires Inv(env, w, s) && Enabled(env, w, s, st) && Abandoned(env, w, s.mem, id)
    ensures var (w', s') := Next(env, w, s, st); Abandoned(env, w', s'.mem, id)
  {
    hide Next, Enabled, Linked, ImageOk, TablesOk, Claimed;
    var (w', s') := Next(env, w, s, st);
    var k := w.prepayments[id.0];
    assert k in w.used by {
      SettleIsUsed(env, w, k);
    }
    hide WorldOk;
    StepKeepsHistory(env, w, s, st);
    StepKeepsClaims(env, w, s, st, k);
    StepFundings(env, w, s, st, k);
    StepKeys(env, w, s, st);
    StepKeepsInv(env, w, s, st);
    InvoiceKeys(env, w, s);
    InvoiceKeys(env, w', s');
  }

  /** Only the arrival of an HTLC adds to the arrivals. */
  lemma StepArrivals(env: Env, w: World, s: State, st: Step, id: HtlcId)
    requires Enabled(env, w, s, st) && id in Next(env, w, s, st).0.arrivals
    ensures id in w.arrivals || st.HtlcStep?
  {
    hide CreateStages, CallbackTurn, ClaimSwap, AfterClaim, AfterSettle, AnswersOf, SettlePrepay, CheckInvoiceExpiry,
         HtlcAccepted, Restart, GoodRequest, LockBytes, Spends, RefundSpend, FindHtlc;
    match st {
      case TurnStep(t, f, c1, c2) =>
        AfterSettleChain(w, s, PrepayOf(s, t), CallbackTurn(s, t, f, env.sha256, c1, c2).settled);
      case TurnInterrupted(t, _, c) =>
        AfterSettleChain(w, s, PrepayOf(s, t), SettlePrepay(s, t, env.sha256, c).settled);
      case ClaimStep(t, o, c) => AfterClaimChain(env, w, s, t, o, c);
      case ClaimInterrupted(t, o, c) => AfterClaimChain(env, w, s, t, o, c);
      case _ =>
    }
  }

  lemma StepAccounts(env: Env, w: World, s: State, st: Step)
    requires Inv(env, w, s) && AllAccounted(env, w, s) && Enabled(env, w, s, st)
    ensures var (w', s') := Next(env, w, s, st); AllAccounted(env, w', s')
  {
    hide Next, Enabled, Inv, Waits, Abandoned;
    var (w', s') := Next(env, w, s, st);
    assert WorldOk(env, w) by {
      WorldOfInv(env, w, s);
    }
    hide WorldOk;
    StepKeepsHistory(env, w, s, st);
    InvoiceKeys(env, w, s);
    forall id | id in w'.arrivals ensures id.0 in w'.used && Accounted(env, w', s'.mem, id) {
      StepArrivals(env, w, s, st, id);
      if id !in w.arrivals {
        ArrivalAccounted(env, w, s, st, id);
      } else if Waits(s.mem, id) {
        StepLosesNone(env, w, s, st, id);
      } else if Abandoned(env, w, s.mem, id) {
        AbandonedStays(env, w, s, st, id);
      }
    }
  }

  lemma {:induction false} RunAccounts(env: Env, w: World, s: State, steps: seq<Step>)
    requires Inv(env, w, s) && AllAccounted(env, w, s) && Possible(env, w, s, steps)
    ensures var (w', s') := RunOf(env, w, s, steps); AllAccounted(env, w', s')
    decreases |steps|
  {
    hide Inv, Next, Enabled, AllAccounted;
    if steps != [] {
      StepKeepsInv(env, w, s, steps[0]);
      StepAccounts(env, w, s, steps[0]);
      var (w', s') := Next(env, w, s, steps[0]);
      RunAccounts(env, w', s', steps[1..]);
    }
  }

  /** In every reachable state, with crashes anywhere: each HTLC that ever arrived for a hold invoice was answered,
      or is stored as ACCEPTED in the live tree and on disk, or paid the prepay invoice of a swap that was claimed
      without the provider having funded it. */
  lemma NoHtlcIsForgotten(env: Env, w: World, s: State, id: HtlcId)
    requires Reachable(env, w, s) && id in w.arrivals
    ensures HasAnswer(w, id) || (Waits(s.mem, id) && Waits(s.tracked, id) && Waits(s.disk, id))
            || Abandoned(env, w, s.mem, id)
  {
    hide Possible, RunOf, Inv, Waits, Abandoned;
    ReachableInv(env, w, s);
    var height: nat, steps: seq<Step> :| Reaches(env, height, steps, w, s);
    InitialInv(env, height);
    RunAccounts(env, InitialWorld(height), INITIAL, steps);
    LiveIsOnDisk(env, w, s);
  }

  lemma LiveIsOnDisk(env: Env, w: World, s: State)
    requires Inv(env, w, s)
    ensures forall id :: Waits(s.mem, id) ==> Waits(s.disk, id) && Waits(s.tracked, id)
  {
    hide WorldOk, ImageOk, Linked, TablesOk;
    DiskKeeps(w, s);
  }

  // ---- Answered in the step ----

  /** The same world, in which no answer was given yet. */
  function Unanswered(w: World): World { w.(answers := {}) }

  lemma UnansweredInv(env: Env, w: World, s: State)
    requires Inv(env, w, s)
    ensures Inv(env, Unanswered(w), s)
  {
    var w0 := Unanswered(w);
    assert w.resolved <= w.used && w.reversals.Keys <= w.used;
    hide WorldOk, Good, Grown;
    SameLockupsGrown(env, w, w0);
    GrownGood(env, w, w0, s);
    TablesIgnoreHistory(w, w0, s);
  }

  lemma UnansweredEnabled(env: Env, w: World, s: State, st: Step)
    requires Enabled(env, w, s, st)
    ensures Enabled(env, Unanswered(w), s, st)
  {
    hide LockBytes, Spends, RefundSpend;
  }

  /** From every reachable state: when a step takes an HTLC that waits out of the live tree, or out of ACCEPTED, it is
      answered in that very step; the only exception is the prepay invoice that _finish_normal_swap deletes, of a swap
      whose funding transaction the provider never sent. */
  lemma TakenMeansAnswered(env: Env, w: World, s: State, st: Step, id: HtlcId)
    requires Reachable(env, w, s) && Enabled(env, w, s, st)
    requires Waits(s.mem, id) && !Waits(Next(env, w, s, st).1.mem, id)
    ensures Enabled(env, Unanswered(w), s, st)
    ensures HasAnswer(Next(env, Unanswered(w), s, st).0, id)
            || (st.ClaimStep? && s.mem.swaps[st.k].prepayHash == Some(id.0) && st.k !in w.fundings)
  {
    ReachableInv(env, w, s);
    UnansweredInv(env, w, s);
    UnansweredEnabled(env, w, s, st);
    NextIgnoresAnswers(env, w, s, st);
    hide Inv, Next, Enabled, Waits, Reachable, Abandoned;
    StepLosesNone(env, Unanswered(w), s, st, id);
  }

  lemma NextIgnoresAnswers(env: Env, w: World, s: State, st: Step)
    requires Enabled(env, w, s, st) && Enabled(env, Unanswered(w), s, st)
    ensures Next(env, Unanswered(w), s, st).1 == Next(env, w, s, st).1
  {
    hide Enabled, CreateStages, CallbackTurn, ClaimSwap, AfterClaim, AfterSettle, AnswersOf, SettlePrepay,
         CheckInvoiceExpiry, HtlcAccepted, Restart;
  }
}
