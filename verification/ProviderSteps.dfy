/** Every operation of the provider keeps the invariant. */
module ProviderSteps {
  import opened Invoices
  import opened Provider
  import opened ProviderRuns
  import opened ProviderInvariant

  // ---- The Lightning layer ----

  /** An invoice whose funding status may not move fits again after the move when it was neither FUNDED nor SETTLED. */
  lemma UnfundedIsFree(env: Env, w: World, im: Image, h: Hash)
    requires ImageOk(env, w, im) && WorldOk(env, w) && h in im.invoices
    requires im.invoices[h].status !in {FUNDED, SETTLED}
    ensures forall k :: k in w.fundings && k in w.terms ==>
              && h != w.terms[k].request.prepayHash
              && (h == k ==> Claimed(env, w, k) && !Unrevealed(im.swaps, k))
  {
    forall k | k in w.fundings && k in w.terms
      ensures h != w.terms[k].request.prepayHash && (h == k ==> Claimed(env, w, k) && !Unrevealed(im.swaps, k))
    {
      assert FundedOk(env, w, im, k);
    }
  }

  lemma CancelledIsDerived(inv: InvoiceRecord)
    requires inv.status !in {FUNDED, SETTLED}
    ensures var inv' := CancelAll(inv).0;
            && inv' == inv.(htlcs := inv'.htlcs, status := inv'.status) && !inv'.status.FUNDED?
            && Derived(inv.htlcs, inv'.htlcs) && MovedOn(inv.htlcs, inv'.htlcs)
            && (Has(inv'.htlcs, Settled) ==> Has(inv.htlcs, Settled))
  {
  }

  lemma CancelFits(env: Env, w: World, im: Image, h: Hash)
    requires ImageOk(env, w, im) && WorldOk(env, w) && h in im.invoices
    requires im.invoices[h].status !in {FUNDED, SETTLED}
    ensures Fits(env, w, im, h, CancelAll(im.invoices[h]).0)
    ensures MovedOn(im.invoices[h].htlcs, CancelAll(im.invoices[h]).0.htlcs)
    ensures !CancelAll(im.invoices[h]).0.status.FUNDED?
  {
    var inv := im.invoices[h];
    CancelAllKeepsWellFormed(inv);
    CancelledIsDerived(inv);
    UnfundedIsFree(env, w, im, h);
    hide CancelAll, Derived, MovedOn, Has, WorldOk;
    DerivedInvoiceOk(env, w, h, inv, CancelAll(inv).0);
    hide InvoiceOk;
    if h in im.swaps {
      assert CrossOk(inv, im.swaps[h]);
    }
  }

  lemma TouchedIsThere(s: State, k: Hash, inv: InvoiceRecord)
    ensures k in Touch(s, k, inv).mem.invoices && Touch(s, k, inv).mem.swaps == s.mem.swaps
  {
  }

  lemma ExpiryGood(env: Env, w: World, s: State, k: Hash, now: int, consolidate: bool)
    requires WorldOk(env, w) && Good(env, w, s)
    ensures Good(env, w, CheckInvoiceExpiry(s, k, now, consolidate).state)
  {
    hide ImageOk, WorldOk, Linked, Fits, CancelAll, Write, Touch, DropHoldInvoice;
    if k in s.mem.invoices {
      var inv := s.mem.invoices[k];
      if inv.createdAt + inv.expiry < now && inv.status !in {FUNDED, SETTLED} {
        CancelFits(env, w, s.mem, k);
        UnfundedIsFree(env, w, s.mem, k);
        var s' := Touch(s, k, CancelAll(inv).0);
        TouchGood(env, w, s, k, CancelAll(inv).0);
        TouchedIsThere(s, k, CancelAll(inv).0);
        DropHoldInvoiceHalf(env, w, s', k);
        WriteGood(env, w, DropHoldInvoice(s', k), consolidate);
      }
    }
  }

  // ---- A new HTLC ----

  predicate HasArrived(w: World, k: Hash, inc: Incoming, expiry: int, decodeOk: bool)
  {
    var id := (k, inc.scid, inc.channelId, inc.amountMsat);
    id in w.arrivals && w.arrivals[id] == Arrival(expiry, inc.cltvRelative, inc.secret, decodeOk)
  }

  predicate NoSuchHtlc(hs: seq<HtlcRecord>, inc: Incoming)
  {
    forall i :: 0 <= i < |hs| ==> !SameHtlc(hs[i], FromCln(inc, 0))
  }

  lemma ArrivedLateEnough(
    w: World, k: Hash, inc: Incoming, expiry: int, decodeOk: bool, h: Hash, locktime: int, hs: seq<HtlcRecord>)
    requires AllLateEnough(w, h, locktime, hs)
    requires h == k ==> NoSuchHtlc(hs, inc)
    ensures AllLateEnough(Arrived(w, k, inc, expiry, decodeOk), h, locktime, hs)
  {
    forall i | 0 <= i < |hs| ensures LateEnough(Arrived(w, k, inc, expiry, decodeOk), h, locktime, hs[i]) {
      assert LateEnough(w, h, locktime, hs[i]);
      if h == k {
        assert !SameHtlc(hs[i], FromCln(inc, 0));
      }
    }
  }

  lemma ArrivedVetted(
    w: World, k: Hash, inc: Incoming, expiry: int, decodeOk: bool, h: Hash, b: Bolt11, hs: seq<HtlcRecord>)
    requires AllVetted(w, h, b, hs) && (h == k ==> NoSuchHtlc(hs, inc))
    ensures AllVetted(Arrived(w, k, inc, expiry, decodeOk), h, b, hs)
  {
    forall i | 0 <= i < |hs| ensures Vetted(Arrived(w, k, inc, expiry, decodeOk), h, b, hs[i]) {
      assert Vetted(w, h, b, hs[i]);
      if h == k {
        assert !SameHtlc(hs[i], FromCln(inc, 0));
      }
    }
  }

  lemma ArrivedInvoiceOk(
    env: Env, w: World, k: Hash, inc: Incoming, expiry: int, decodeOk: bool, h: Hash, inv: InvoiceRecord)
    requires InvoiceOk(env, w, h, inv)
    requires h == k ==> NoSuchHtlc(inv.htlcs, inc)
    ensures InvoiceOk(env, Arrived(w, k, inc, expiry, decodeOk), h, inv)
  {
    ArrivedVetted(w, k, inc, expiry, decodeOk, h, inv.bolt11, inv.htlcs);
    if h in w.terms {
      ArrivedLateEnough(w, k, inc, expiry, decodeOk, h, w.terms[h].request.lock.locktime, inv.htlcs);
    }
    if h in w.prepayments && w.prepayments[h] in w.terms {
      ArrivedLateEnough(w, k, inc, expiry, decodeOk, h, w.terms[w.prepayments[h]].request.lock.locktime, inv.htlcs);
    }
  }

  lemma ArrivedImageOk(
    env: Env, w: World, k: Hash, inc: Incoming, expiry: int, decodeOk: bool, im: Image)
    requires ImageOk(env, w, im)
    requires k in im.invoices ==> NoSuchHtlc(im.invoices[k].htlcs, inc)
    ensures ImageOk(env, Arrived(w, k, inc, expiry, decodeOk), im)
  {
    var w' := Arrived(w, k, inc, expiry, decodeOk);
    forall h | h in im.invoices ensures InvoiceOk(env, w', h, im.invoices[h]) {
      ArrivedInvoiceOk(env, w, k, inc, expiry, decodeOk, h, im.invoices[h]);
    }
    forall f | f in w'.fundings ensures FundedOk(env, w', im, f) {
      assert FundedOk(env, w, im, f);
    }
  }

  lemma NoSuchHtlcBelow(a: seq<HtlcRecord>, b: seq<HtlcRecord>, inc: Incoming)
    requires Extends(a, b) && NoSuchHtlc(b, inc)
    ensures NoSuchHtlc(a, inc)
  {
    forall i | 0 <= i < |a| ensures !SameHtlc(a[i], FromCln(inc, 0)) {
      assert SameHtlc(a[i], b[i]) && !SameHtlc(b[i], FromCln(inc, 0));
    }
  }

  lemma ArrivedWorldOk(env: Env, w: World, k: Hash, inc: Incoming, expiry: int, decodeOk: bool)
    requires WorldOk(env, w)
    ensures WorldOk(env, Arrived(w, k, inc, expiry, decodeOk))
  {
    var w' := Arrived(w, k, inc, expiry, decodeOk);
    forall t | t in w'.terms ensures TermsOk(env, w', t) {
      assert TermsOk(env, w, t);
    }
    forall q | q in w'.prepayments ensures PrepaymentOk(w', q) {
      assert PrepaymentOk(w, q);
    }
    forall r | r in w'.refunds ensures RefundOk(w', r) {
      assert RefundOk(w, r);
    }
    forall r | r in w'.claims ensures ReverseClaimOk(env, w', r) {
      assert ReverseClaimOk(env, w, r);
    }
    assert LockupsOk(env, w');
    forall t | t in w'.resolved && t in w'.terms ensures Claimed(env, w', t) {
      assert Claimed(env, w, t);
    }
  }

  lemma ArrivedGood(env: Env, w: World, s: State, k: Hash, inc: Incoming, expiry: int, decodeOk: bool)
    requires Good(env, w, s) && k in s.mem.invoices
    requires NoSuchHtlc(s.mem.invoices[k].htlcs, inc)
    ensures Good(env, Arrived(w, k, inc, expiry, decodeOk), s)
  {
    hide ImageOk, NoSuchHtlc, Arrived, Extends;
    NoSuchHtlcBelow(s.tracked.invoices[k].htlcs, s.mem.invoices[k].htlcs, inc);
    ArrivedImageOk(env, w, k, inc, expiry, decodeOk, s.mem);
    ArrivedImageOk(env, w, k, inc, expiry, decodeOk, s.tracked);
    ArrivedImageOk(env, w, k, inc, expiry, decodeOk, s.disk);
  }

  /** An HTLC that passes the checks of handle_htlc expires late enough. */
  lemma AddedLateEnough(
    env: Env, w: World, h: Hash, t: Hash, inv: InvoiceRecord, inc: Incoming, expiry: int, decodeOk: bool, now: int)
    requires WorldOk(env, w) && t in w.terms
    requires AllLateEnough(w, h, w.terms[t].request.lock.locktime, inv.htlcs)
    requires FindHtlc(inv.htlcs, FromCln(inc, now)).None?
    requires inc.cltvRelative == expiry - w.height
    requires HasArrived(w, h, inc, expiry, decodeOk)
    ensures AllLateEnough(w, h, w.terms[t].request.lock.locktime, HandleHtlc(inv, inc, decodeOk, now).0.htlcs)
  {
    var inv' := HandleHtlc(inv, inc, decodeOk, now).0;
    var locktime := w.terms[t].request.lock.locktime;
    assert TermsOk(env, w, t);
    forall i | 0 <= i < |inv'.htlcs| ensures LateEnough(w, h, locktime, inv'.htlcs[i]) {
      if i < |inv.htlcs| {
        assert LateEnough(w, h, locktime, inv.htlcs[i]);
      }
    }
  }

  /** An HTLC that passes the checks of handle_htlc is vetted. */
  lemma AddedVetted(w: World, h: Hash, inv: InvoiceRecord, inc: Incoming, expiry: int, decodeOk: bool, now: int)
    requires AllVetted(w, h, inv.bolt11, inv.htlcs) && HasArrived(w, h, inc, expiry, decodeOk)
    requires FindHtlc(inv.htlcs, FromCln(inc, now)).None?
    ensures HandleHtlc(inv, inc, decodeOk, now).0.bolt11 == inv.bolt11
    ensures AllVetted(w, h, inv.bolt11, HandleHtlc(inv, inc, decodeOk, now).0.htlcs)
  {
    var inv' := HandleHtlc(inv, inc, decodeOk, now).0;
    forall i | 0 <= i < |inv'.htlcs| ensures Vetted(w, h, inv.bolt11, inv'.htlcs[i]) {
      if i < |inv.htlcs| {
        assert Vetted(w, h, inv.bolt11, inv.htlcs[i]);
      }
    }
  }

  lemma NewHtlcInvoiceOk(
    env: Env, w: World, h: Hash, inv: InvoiceRecord, inc: Incoming, expiry: int, decodeOk: bool, now: int)
    requires InvoiceOk(env, w, h, inv) && WorldOk(env, w)
    requires FindHtlc(inv.htlcs, FromCln(inc, now)).None?
    requires inc.cltvRelative == expiry - w.height
    requires HasArrived(w, h, inc, expiry, decodeOk)
    ensures InvoiceOk(env, w, h, HandleHtlc(inv, inc, decodeOk, now).0)
    ensures Has(HandleHtlc(inv, inc, decodeOk, now).0.htlcs, Settled) ==> Has(inv.htlcs, Settled)
  {
    hide WorldOk, AllLateEnough, AllVetted, Claimed, WellFormed;
    var inv' := HandleHtlc(inv, inc, decodeOk, now).0;
    AddedVetted(w, h, inv, inc, expiry, decodeOk, now);
    HandleHtlcKeepsWellFormed(inv, inc, decodeOk, now);
    NoNewSettled(inv, inc, decodeOk, now);
    if h in w.terms {
      AddedLateEnough(env, w, h, h, inv, inc, expiry, decodeOk, now);
    }
    if h in w.prepayments && w.prepayments[h] in w.terms {
      AddedLateEnough(env, w, h, w.prepayments[h], inv, inc, expiry, decodeOk, now);
    }
  }

  lemma NoNewSettled(inv: InvoiceRecord, inc: Incoming, decodeOk: bool, now: int)
    ensures Has(HandleHtlc(inv, inc, decodeOk, now).0.htlcs, Settled) ==> Has(inv.htlcs, Settled)
  {
    var hs, hs' := inv.htlcs, HandleHtlc(inv, inc, decodeOk, now).0.htlcs;
    forall i | 0 <= i < |hs'| && hs'[i].state == Settled ensures Has(hs, Settled) {
      assert i < |hs| && hs[i].state == Settled;
    }
  }

  lemma HandledStatusFits(env: Env, w: World, im: Image, k: Hash, inc: Incoming, decodeOk: bool, now: int)
    requires ImageOk(env, w, im) && WorldOk(env, w) && k in im.invoices
    ensures var inv' := HandleHtlc(im.invoices[k], inc, decodeOk, now).0;
            forall f :: f in w.fundings && f in w.terms ==>
              && (k == w.terms[f].request.prepayHash ==> inv'.status.SETTLED?)
              && (k == f ==> (Claimed(env, w, f) && !Unrevealed(im.swaps, f)) || inv'.status.FUNDED?)
  {
    var inv := im.invoices[k];
    var inv' := HandleHtlc(inv, inc, decodeOk, now).0;
    if inv.status !in {FUNDED, SETTLED} {
      UnfundedIsFree(env, w, im, k);
    } else {
      assert inv'.status == inv.status;
    }
    forall f | f in w.fundings && f in w.terms
      ensures (k == w.terms[f].request.prepayHash ==> inv'.status.SETTLED?)
      ensures k == f ==> (Claimed(env, w, f) && !Unrevealed(im.swaps, f)) || inv'.status.FUNDED?
    {
      assert FundedOk(env, w, im, f);
    }
  }

  /** The invoice after a new HTLC was added. */
  lemma NewHtlcFits(
    env: Env, w: World, im: Image, k: Hash, inc: Incoming, expiry: int, decodeOk: bool, now: int)
    requires ImageOk(env, w, im) && WorldOk(env, w) && k in im.invoices
    requires FindHtlc(im.invoices[k].htlcs, FromCln(inc, now)).None?
    requires inc.cltvRelative == expiry - w.height
    requires HasArrived(w, k, inc, expiry, decodeOk)
    ensures Fits(env, w, im, k, HandleHtlc(im.invoices[k], inc, decodeOk, now).0)
  {
    NewHtlcInvoiceOk(env, w, k, im.invoices[k], inc, expiry, decodeOk, now);
    HandledStatusFits(env, w, im, k, inc, decodeOk, now);
    hide WorldOk, InvoiceOk;
    if k in im.swaps {
      assert CrossOk(im.invoices[k], im.swaps[k]);
    }
  }

  lemma ReplayIsDerived(inv: InvoiceRecord, inc: Incoming, decodeOk: bool, now: int)
    requires FindHtlc(inv.htlcs, FromCln(inc, now)).Some?
    ensures var inv' := HandleHtlc(inv, inc, decodeOk, now).0;
            inv' == inv.(htlcs := inv'.htlcs) && Derived(inv.htlcs, inv'.htlcs)
  {
  }

  lemma ReplayFits(env: Env, w: World, im: Image, k: Hash, inc: Incoming, decodeOk: bool, now: int)
    requires ImageOk(env, w, im) && WorldOk(env, w) && k in im.invoices
    requires FindHtlc(im.invoices[k].htlcs, FromCln(inc, now)).Some?
    ensures Fits(env, w, im, k, HandleHtlc(im.invoices[k], inc, decodeOk, now).0)
  {
    var inv := im.invoices[k];
    HandleHtlcKeepsWellFormed(inv, inc, decodeOk, now);
    NoNewSettled(inv, inc, decodeOk, now);
    ReplayIsDerived(inv, inc, decodeOk, now);
    HandledStatusFits(env, w, im, k, inc, decodeOk, now);
    hide WorldOk, HandleHtlc, FindHtlc, Derived, Has;
    DerivedInvoiceOk(env, w, k, inv, HandleHtlc(inv, inc, decodeOk, now).0);
    hide InvoiceOk;
    if k in im.swaps {
      assert CrossOk(inv, im.swaps[k]);
    }
  }

  lemma HtlcGood(
    env: Env, w: World, s: State, k: Hash, inc: Incoming, expiry: int, decodeOk: bool, now: int, consolidate: bool)
    requires WorldOk(env, w) && Good(env, w, s)
    requires inc.cltvRelative == expiry - w.height
    ensures var isNew := k in s.mem.invoices && FindHtlc(s.mem.invoices[k].htlcs, FromCln(inc, now)).None?;
            var w' := if isNew then Arrived(w, k, inc, expiry, decodeOk) else w;
            WorldOk(env, w') && Good(env, w', HtlcAccepted(s, k, inc, decodeOk, now, consolidate))
  {
    hide ImageOk, WorldOk, Linked, Fits, Write, SetInvoice;
    if k in s.mem.invoices {
      var inv := HandleHtlc(s.mem.invoices[k], inc, decodeOk, now).0;
      if FindHtlc(s.mem.invoices[k].htlcs, FromCln(inc, now)).None? {
        var w' := Arrived(w, k, inc, expiry, decodeOk);
        ArrivedWorldOk(env, w, k, inc, expiry, decodeOk);
        ArrivedGood(env, w, s, k, inc, expiry, decodeOk);
        NewHtlcFits(env, w', s.mem, k, inc, expiry, decodeOk, now);
        SetInvoiceHalf(env, w', s, k, inv);
        WriteGood(env, w', SetInvoice(s, k, inv), consolidate);
        UpdateOfTouch(s, k, inv, consolidate);
      } else {
        ReplayFits(env, w, s.mem, k, inc, decodeOk, now);
        TouchGood(env, w, s, k, inv);
      }
    }
  }
}
