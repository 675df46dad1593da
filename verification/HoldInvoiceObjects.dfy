/** The live Htlc and HoldInvoice objects, updated in place. */
module HoldInvoiceObjects {
  import opened Common
  import opened Invoices

  class Htlc {
    var state: HtlcState
    const scid: string
    const channelId: int
    const amountMsat: nat
    const createdAt: int
    var requestCallback: Callback
    ghost const owner: object      // the invoice it belongs to

    constructor (h: HtlcRecord, ghost owner: object)
      ensures Record() == h && this.owner == owner
    {
      this.owner := owner;
      state, scid, channelId, amountMsat := h.state, h.scid, h.channelId, h.amountMsat;
      createdAt, requestCallback := h.createdAt, h.callback;
    }

    function Record(): HtlcRecord
      reads this
    {
      HtlcRecord(state, scid, channelId, amountMsat, createdAt, requestCallback)
    }

    method AddNewHtlcCallback()
      modifies this`requestCallback
      ensures Record() == old(Record()).(callback := Pending)
    {
      requestCallback := Pending;
    }

    /** The common part of fail, fail_timeout and settle; the result is false when an exception is raised. */
    method Answer(a: Answer) returns (ok: bool)
      modifies this`state, this`requestCallback
      ensures ok <==> Resolve(old(Record()), a).Some?
      ensures Record() == ResolveIfAccepted(old(Record()), a)
    {
      if !state.Accepted? {
        return false;
      }
      if requestCallback.Detached? {
        return false;
      }
      state := if a.ResolveWith? then Settled else Cancelled;
      requestCallback := Answered(a);
      return true;
    }

    method Fail() returns (ok: bool)
      modifies this`state, this`requestCallback
      ensures ok <==> Resolve(old(Record()), FAIL_DETAILS).Some?
      ensures Record() == ResolveIfAccepted(old(Record()), FAIL_DETAILS)
    {
      ok := Answer(FAIL_DETAILS);
    }

    method FailTimeout() returns (ok: bool)
      modifies this`state, this`requestCallback
      ensures ok <==> Resolve(old(Record()), FAIL_TIMEOUT).Some?
      ensures Record() == ResolveIfAccepted(old(Record()), FAIL_TIMEOUT)
    {
      ok := Answer(FAIL_TIMEOUT);
    }

    method SettleWith(preimage: Bytes) returns (ok: bool)
      modifies this`state, this`requestCallback
      ensures ok <==> Resolve(old(Record()), ResolveWith(preimage)).Some?
      ensures Record() == ResolveIfAccepted(old(Record()), ResolveWith(preimage))
    {
      ok := Answer(ResolveWith(preimage));
    }
  }

  function Records(hs: seq<Htlc>): (r: seq<HtlcRecord>)
    reads hs
    ensures |r| == |hs| && forall i :: 0 <= i < |hs| ==> r[i] == hs[i].Record()
  {
    seq(|hs|, i requires 0 <= i < |hs| reads hs => hs[i].Record())
  }

  class HoldInvoice {
    const paymentHash: Bytes
    const bolt11: Bolt11
    const amountMsat: nat
    const expiry: int
    const createdAt: int
    var incomingHtlcs: seq<Htlc>
    var fundingStatus: FundingStatus
    var associatedInvoice: Option<Bytes>

    ghost predicate Valid()
      reads this
    {
      (forall i, j :: 0 <= i < j < |incomingHtlcs| ==> incomingHtlcs[i] != incomingHtlcs[j]) && OwnsAll()
    }

    ghost predicate OwnsAll()
      reads this
    {
      forall h :: h in incomingHtlcs ==> h.owner == this
    }

    function Record(): InvoiceRecord
      reads this, incomingHtlcs
    {
      InvoiceRecord(paymentHash, bolt11, amountMsat, expiry, Records(incomingHtlcs),
                    fundingStatus, createdAt, associatedInvoice)
    }

    ghost function Repr(): set<object>
      reads this
    {
      {this} + (set h: Htlc | h in incomingHtlcs :: h as object)
    }

    /** The constructor that rebuilds an invoice from its stored form. */
    constructor (r: InvoiceRecord)
      ensures Valid() && Record() == r && fresh(Repr())
    {
      paymentHash, bolt11, amountMsat, expiry, createdAt :=
        r.paymentHash, r.bolt11, r.amountMsat, r.expiry, r.createdAt;
      fundingStatus, associatedInvoice, incomingHtlcs := r.status, r.associated, [];
      new;
      for i := 0 to |r.htlcs|
        invariant |incomingHtlcs| == i && Valid() && fresh(incomingHtlcs)
        invariant fundingStatus == r.status && associatedInvoice == r.associated
        invariant forall k :: 0 <= k < i ==> incomingHtlcs[k].Record() == r.htlcs[k]
      {
        var h := new Htlc(r.htlcs[i], this);
        incomingHtlcs := incomingHtlcs + [h];
      }
      assert Records(incomingHtlcs) == r.htlcs;
    }

    /** The result is false when the invoice already has an associated invoice. */
    method AttachPrepayInvoice(prepayHash: Bytes) returns (ok: bool)
      modifies this`associatedInvoice
      ensures ok <==> old(associatedInvoice).None?
      ensures Record() == if ok then old(Record()).(associated := Some(prepayHash)) else old(Record())
    {
      if associatedInvoice.Some? {
        return false;
      }
      associatedInvoice := Some(prepayHash);
      return true;
    }

    method FindHtlcObject(h: HtlcRecord) returns (r: Option<Htlc>)
      ensures match FindHtlc(Record().htlcs, h) {
                case None => r.None?
                case Some(n) => r == Some(incomingHtlcs[n])
              }
    {
      for i := 0 to |incomingHtlcs|
        invariant forall k :: 0 <= k < i ==> !SameHtlc(incomingHtlcs[k].Record(), h)
      {
        if SameHtlc(incomingHtlcs[i].Record(), h) {
          return Some(incomingHtlcs[i]);
        }
      }
      return None;
    }

    method FullyFunded() returns (funded: bool)
      ensures funded <==> IsFullyFunded(Record())
    {
      ghost var hs := Records(incomingHtlcs);
      var total := 0;
      for i := 0 to |incomingHtlcs|
        invariant total == CountedMsat(hs[..i])
      {
        assert hs[..i + 1] == hs[..i] + [hs[i]];
        StateMsatAppend(hs[..i], hs[i], Accepted);
        StateMsatAppend(hs[..i], hs[i], Settled);
        if incomingHtlcs[i].state in {Accepted, Settled} {
          total := total + incomingHtlcs[i].amountMsat;
        }
      }
      assert hs[..|hs|] == hs;
      return total >= amountMsat;
    }

    /** Answer the accepted HTLCs one by one; an exception leaves the rest as they are. */
    method AnswerAccepted(a: Answer) returns (ok: bool)
      requires Valid()
      modifies incomingHtlcs
      ensures Valid()
      ensures Records(incomingHtlcs) == ResolveAll(old(Records(incomingHtlcs)), a)
      ensures ok <==> AllAttached(old(Records(incomingHtlcs)))
    {
      hide OwnsAll;
      ghost var hs := Records(incomingHtlcs);
      FirstStuckIsEnd(hs);
      for i := 0 to |incomingHtlcs|
        invariant i <= FirstStuck(hs)
        invariant forall k :: 0 <= k < i ==> incomingHtlcs[k].Record() == ResolveIfAccepted(hs[k], a)
        invariant forall k :: i <= k < |hs| ==> incomingHtlcs[k].Record() == hs[k]
      {
        if incomingHtlcs[i].state.Accepted? {
          var done := incomingHtlcs[i].Answer(a);
          if !done {
            assert FirstStuck(hs) == i;
            assert Records(incomingHtlcs) == ResolveAll(hs, a);
            return false;
          }
        }
      }
      assert Records(incomingHtlcs) == ResolveAll(hs, a);
      return true;
    }

    /** Every HTLC object that was ACCEPTED when the list `was` stood for the HTLCs was given the answer. */
    ghost predicate GivenTo(was: seq<HtlcRecord>, a: Answer)
      reads this, incomingHtlcs
    {
      |was| == |incomingHtlcs|
      && forall i :: 0 <= i < |was| && was[i].state.Accepted? ==>
           incomingHtlcs[i].requestCallback == Answered(a)
           && incomingHtlcs[i].state == if a.ResolveWith? then Settled else Cancelled
    }

    lemma AnswersAreGiven(was: seq<HtlcRecord>, a: Answer)
      requires Records(incomingHtlcs) == ResolveAll(was, a) && AllAttached(was)
      ensures GivenTo(was, a)
    {
      FirstStuckIsEnd(was);
      forall i | 0 <= i < |was| && was[i].state.Accepted?
        ensures incomingHtlcs[i].requestCallback == Answered(a)
        ensures incomingHtlcs[i].state == if a.ResolveWith? then Settled else Cancelled
      {
        assert Records(incomingHtlcs)[i] == incomingHtlcs[i].Record();
      }
    }

    method CancelAllHtlcs() returns (ok: bool)
      requires Valid()
      modifies this`fundingStatus, incomingHtlcs
      ensures Valid()
      ensures (Record(), ok) == CancelAll(old(Record()))
      ensures ok <==> forall i :: 0 <= i < |incomingHtlcs| && old(incomingHtlcs[i].state).Accepted? ==>
                        !old(incomingHtlcs[i].requestCallback).Detached?
      ensures ok ==> GivenTo(old(Records(incomingHtlcs)), FailWith("400F")) && fundingStatus.FAILED?
    {
      ok := AnswerAccepted(FAIL_DETAILS);
      if ok {
        AnswersAreGiven(old(Records(incomingHtlcs)), FAIL_DETAILS);
      }
      if ok {
        fundingStatus := FAILED;
      }
    }

    method SettleInvoice(preimage: Bytes, sha256: Bytes -> Bytes) returns (ok: bool)
      requires Valid()
      modifies this`fundingStatus, incomingHtlcs
      ensures Valid()
      ensures (Record(), ok) == Settle(old(Record()), preimage, sha256)
      ensures ok ==> GivenTo(old(Records(incomingHtlcs)), ResolveWith(preimage)) && fundingStatus.SETTLED?
    {
      if paymentHash != sha256(preimage) {
        return false;
      }
      var funded := FullyFunded();
      if !funded {
        return false;
      }
      ok := AnswerAccepted(ResolveWith(preimage));
      if ok {
        AnswersAreGiven(old(Records(incomingHtlcs)), ResolveWith(preimage));
        fundingStatus := SETTLED;
      }
    }

    /** CLNLightning.handle_htlc on this invoice; true when the changes need to be saved. */
    method AcceptHtlc(inc: Incoming, decodeOk: bool, now: int) returns (changed: bool)
      requires Valid()
      modifies this`incomingHtlcs, this`fundingStatus, incomingHtlcs
      ensures Valid() && fresh(Repr() - old(Repr()))
      ensures (Record(), changed) == HandleHtlc(old(Record()), inc, decodeOk, now)
      ensures changed ==> |incomingHtlcs| > 0 && incomingHtlcs[..|incomingHtlcs| - 1] == old(incomingHtlcs)
                          && Judged(incomingHtlcs[|incomingHtlcs| - 1], old(fundingStatus), inc, decodeOk)
    {
      ghost var was := Record();
      var h := new Htlc(FromCln(inc, now), this);
      var existing := FindHtlcObject(h.Record());
      if existing.Some? {
        Reattach(existing.value, FindHtlc(was.htlcs, h.Record()).value);
        return false;
      }
      AcceptNewHtlc(h, inc, decodeOk);
      return true;
    }

    method Reattach(h: Htlc, ghost n: nat)
      requires Valid() && n < |incomingHtlcs| && incomingHtlcs[n] == h
      modifies h`requestCallback
      ensures Valid()
      ensures Record() == old(Record()).(htlcs := old(Record()).htlcs[n := old(h.Record()).(callback := Pending)])
    {
      ghost var hs := Records(incomingHtlcs);
      h.AddNewHtlcCallback();
      assert Records(incomingHtlcs) == hs[n := h.Record()];
    }

    /** What becomes of a new HTLC, with the status that the invoice had: it waits as ACCEPTED if the invoice could be
        decoded and was UNFUNDED, the HTLC leaves enough blocks and came with the payment secret; otherwise it is failed
        at once. */
    predicate Judged(h: Htlc, status: FundingStatus, inc: Incoming, decodeOk: bool)
      reads h
    {
      var good := decodeOk && status.UNFUNDED? && inc.cltvRelative >= bolt11.minFinalCltv && inc.cltvRelative >= 144
                  && inc.secret == Some(bolt11.paymentSecret);
      && h.state == (if good then Accepted else Cancelled)
      && h.requestCallback == if good then Pending else Answered(FailWith("400F"))
    }

    method AcceptNewHtlc(h: Htlc, inc: Incoming, decodeOk: bool)
      requires Valid() && h !in incomingHtlcs
      requires h.owner == this && h.state.Accepted? && h.requestCallback.Pending?
      modifies this`incomingHtlcs, this`fundingStatus, h
      ensures Valid() && incomingHtlcs == old(incomingHtlcs) + [h]
      ensures Judged(h, old(fundingStatus), inc, decodeOk)
      ensures var was := old(Record());
              Record() ==
              if Refused(was, inc, decodeOk) then
                was.(htlcs := was.htlcs + [ResolveIfAccepted(old(h.Record()), FAIL_DETAILS)])
              else
                var inv' := was.(htlcs := was.htlcs + [old(h.Record())]);
                if IsFullyFunded(inv') then inv'.(status := FUNDED) else inv'
    {
      ghost var hs := Records(incomingHtlcs);
      incomingHtlcs := incomingHtlcs + [h];
      if !decodeOk || fundingStatus.FAILED? || inc.cltvRelative < bolt11.minFinalCltv
         || inc.cltvRelative < MIN_FINAL_CLTV_DELTA_ACCEPTED
         || inc.secret != Some(bolt11.paymentSecret) || !fundingStatus.UNFUNDED? {
        var _ := h.Fail();
        assert Records(incomingHtlcs) == hs + [h.Record()];
        return;
      }
      assert Records(incomingHtlcs) == hs + [h.Record()];
      var funded := FullyFunded();
      if funded {
        fundingStatus := FUNDED;
      }
    }
  }
}
