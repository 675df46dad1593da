/** Hold invoices and their incoming HTLCs, as the values that are kept in the database, and the
    properties every operation on them keeps. The live objects are in HoldInvoiceObjects. */
module Invoices {
  import opened Common

  datatype HtlcState = Settled | Accepted | Cancelled

  /** What is handed back to the Lightning node for one HTLC. */
  datatype Answer = FailWith(code: string) | ResolveWith(preimage: Bytes)

  /** The pending hook request of an HTLC: absent after a reload, waiting, or answered. */
  datatype Callback = Detached | Pending | Answered(answer: Answer)

  datatype HtlcRecord = HtlcRecord(
    state: HtlcState, scid: string, channelId: int, amountMsat: nat, createdAt: int, callback: Callback)

  datatype FundingStatus = SETTLED | FUNDED | UNFUNDED | FAILED

  /** What decodepay reports about the invoice string. */
  datatype Bolt11 = Bolt11(minFinalCltv: int, paymentSecret: Bytes)

  datatype InvoiceRecord = InvoiceRecord(
    paymentHash: Bytes, bolt11: Bolt11, amountMsat: nat, expiry: int, htlcs: seq<HtlcRecord>,
    status: FundingStatus, createdAt: int, associated: Option<Bytes>)

  const FAIL_DETAILS := FailWith("400F")
  const FAIL_TIMEOUT := FailWith("0017")

  // ---- Equality, sums and the well-formed invoice ----

  /** Htlc.__eq__ */
  predicate SameHtlc(a: HtlcRecord, b: HtlcRecord)
  {
    a.scid == b.scid && a.channelId == b.channelId && a.amountMsat == b.amountMsat
  }

  function StateMsat(hs: seq<HtlcRecord>, state: HtlcState): nat
  {
    if hs == [] then 0
    else (if hs[0].state == state then hs[0].amountMsat else 0) + StateMsat(hs[1..], state)
  }

  /** The value that counts towards the invoice. */
  function CountedMsat(hs: seq<HtlcRecord>): nat
  {
    StateMsat(hs, Accepted) + StateMsat(hs, Settled)
  }

  predicate IsFullyFunded(inv: InvoiceRecord)
  {
    CountedMsat(inv.htlcs) >= inv.amountMsat
  }

  predicate Has(hs: seq<HtlcRecord>, state: HtlcState)
  {
    exists i :: 0 <= i < |hs| && hs[i].state == state
  }

  predicate Distinct(hs: seq<HtlcRecord>)
  {
    forall i, j :: 0 <= i < j < |hs| ==> !SameHtlc(hs[i], hs[j])
  }

  predicate WellFormed(inv: InvoiceRecord)
  {
    && inv.amountMsat > 0
    && Distinct(inv.htlcs)
    && match inv.status {
         case UNFUNDED => !IsFullyFunded(inv) && !Has(inv.htlcs, Settled)
         case FUNDED => IsFullyFunded(inv)
         case SETTLED => IsFullyFunded(inv) && !Has(inv.htlcs, Accepted)
         case FAILED => !Has(inv.htlcs, Accepted) && !Has(inv.htlcs, Settled)
       }
  }

  // ---- Resolving HTLCs ----

  /** Htlc.fail, fail_timeout and settle: None is the raised exception, which changes nothing. */
  function Resolve(h: HtlcRecord, a: Answer): Option<HtlcRecord>
  {
    if !h.state.Accepted? || h.callback.Detached? then None
    else Some(h.(state := if a.ResolveWith? then Settled else Cancelled, callback := Answered(a)))
  }

  /** The first HTLC on which resolving every accepted HTLC in turn would raise. */
  function FirstStuck(hs: seq<HtlcRecord>): (n: nat)
    ensures n <= |hs|
    ensures n < |hs| ==> hs[n].state.Accepted? && hs[n].callback.Detached?
    ensures forall i :: 0 <= i < n ==> hs[i].state.Accepted? ==> !hs[i].callback.Detached?
  {
    if hs == [] || (hs[0].state.Accepted? && hs[0].callback.Detached?) then 0
    else 1 + FirstStuck(hs[1..])
  }

  function ResolveIfAccepted(h: HtlcRecord, a: Answer): HtlcRecord
  {
    match Resolve(h, a)
    case Some(r) => r
    case None => h
  }

  /** Resolve every accepted HTLC in order, up to the one that raises. */
  function ResolveAll(hs: seq<HtlcRecord>, a: Answer): (r: seq<HtlcRecord>)
    ensures |r| == |hs|
    ensures forall i :: 0 <= i < |hs| ==>
              r[i] == if i < FirstStuck(hs) then ResolveIfAccepted(hs[i], a) else hs[i]
  {
    seq(|hs|, i requires 0 <= i < |hs| => if i < FirstStuck(hs) then ResolveIfAccepted(hs[i], a) else hs[i])
  }

  predicate AllAttached(hs: seq<HtlcRecord>)
  {
    forall i :: 0 <= i < |hs| && hs[i].state.Accepted? ==> !hs[i].callback.Detached?
  }

  lemma FirstStuckIsEnd(hs: seq<HtlcRecord>)
    ensures FirstStuck(hs) == |hs| <==> AllAttached(hs)
  {
  }

  /** cancel_all_htlcs */
  function CancelAll(inv: InvoiceRecord): (InvoiceRecord, bool)
  {
    var inv' := inv.(htlcs := ResolveAll(inv.htlcs, FAIL_DETAILS));
    if AllAttached(inv.htlcs) then (inv'.(status := FAILED), true) else (inv', false)
  }

  /** settle; the second result is false when an exception is raised. */
  function Settle(inv: InvoiceRecord, preimage: Bytes, sha256: Bytes -> Bytes): (InvoiceRecord, bool)
  {
    if inv.paymentHash != sha256(preimage) || !IsFullyFunded(inv) then (inv, false)
    else
      var inv' := inv.(htlcs := ResolveAll(inv.htlcs, ResolveWith(preimage)));
      if AllAttached(inv.htlcs) then (inv'.(status := SETTLED), true) else (inv', false)
  }

  // ---- An incoming HTLC ----

  datatype Incoming = Incoming(scid: string, channelId: int, amountMsat: nat, cltvRelative: int, secret: Option<Bytes>)

  const MIN_FINAL_CLTV_DELTA_ACCEPTED := 144

  /** find_htlc */
  function FindHtlc(hs: seq<HtlcRecord>, h: HtlcRecord): (r: Option<nat>)
    ensures r.Some? ==> r.value < |hs| && SameHtlc(hs[r.value], h)
                        && forall i :: 0 <= i < r.value ==> !SameHtlc(hs[i], h)
    ensures r.None? ==> forall i :: 0 <= i < |hs| ==> !SameHtlc(hs[i], h)
  {
    if hs == [] then None
    else if SameHtlc(hs[0], h) then Some(0)
    else match FindHtlc(hs[1..], h) {
      case None => None
      case Some(n) => Some(n + 1)
    }
  }

  function FromCln(inc: Incoming, now: int): HtlcRecord
  {
    HtlcRecord(Accepted, inc.scid, inc.channelId, inc.amountMsat, now, Pending)
  }

  /** The reasons for which handle_htlc fails a new HTLC. */
  predicate Refused(inv: InvoiceRecord, inc: Incoming, decodeOk: bool)
  {
    || !decodeOk
    || inv.status.FAILED?
    || inc.cltvRelative < inv.bolt11.minFinalCltv
    || inc.cltvRelative < MIN_FINAL_CLTV_DELTA_ACCEPTED
    || inc.secret != Some(inv.bolt11.paymentSecret)
    || !inv.status.UNFUNDED?
  }

  /** handle_htlc: the invoice afterwards, and whether the caller has to save it. */
  function HandleHtlc(inv: InvoiceRecord, inc: Incoming, decodeOk: bool, now: int): (InvoiceRecord, bool)
  {
    var h := FromCln(inc, now);
    match FindHtlc(inv.htlcs, h)
    case Some(n) => (inv.(htlcs := inv.htlcs[n := inv.htlcs[n].(callback := Pending)]), false)
    case None =>
      if Refused(inv, inc, decodeOk) then
        (inv.(htlcs := inv.htlcs + [ResolveIfAccepted(h, FAIL_DETAILS)]), true)
      else
        var inv' := inv.(htlcs := inv.htlcs + [h]);
        (if IsFullyFunded(inv') then inv'.(status := FUNDED) else inv', true)
  }

  // ---- The database image ----

  /** What to_json followed by from_json keeps of an HTLC: everything but the pending request. */
  function StoredHtlc(h: HtlcRecord): HtlcRecord { h.(callback := Detached) }

  function StoredHtlcs(hs: seq<HtlcRecord>): (r: seq<HtlcRecord>)
    ensures |r| == |hs| && forall i :: 0 <= i < |hs| ==> r[i] == StoredHtlc(hs[i])
  {
    seq(|hs|, i requires 0 <= i < |hs| => StoredHtlc(hs[i]))
  }

  function Stored(inv: InvoiceRecord): InvoiceRecord
  {
    inv.(htlcs := StoredHtlcs(inv.htlcs))
  }

  // ---- Sums ----

  /** Two lists with the same states and amounts have the same sums. */
  lemma {:induction false} StateMsatPointwise(a: seq<HtlcRecord>, b: seq<HtlcRecord>, state: HtlcState)
    requires |a| == |b|
    requires forall i :: 0 <= i < |a| ==> a[i].state == b[i].state && a[i].amountMsat == b[i].amountMsat
    ensures StateMsat(a, state) == StateMsat(b, state)
  {
    if a != [] {
      StateMsatPointwise(a[1..], b[1..], state);
    }
  }

  lemma {:induction false} StateMsatAppend(hs: seq<HtlcRecord>, h: HtlcRecord, state: HtlcState)
    ensures StateMsat(hs + [h], state) == StateMsat(hs, state) + if h.state == state then h.amountMsat else 0
  {
    if hs == [] {
      assert hs + [h] == [h];
    } else {
      assert (hs + [h])[1..] == hs[1..] + [h];
      StateMsatAppend(hs[1..], h, state);
    }
  }

  lemma {:induction false} StateMsatAbsent(hs: seq<HtlcRecord>, state: HtlcState)
    requires !Has(hs, state)
    ensures StateMsat(hs, state) == 0
  {
    if hs != [] {
      StateMsatAbsent(hs[1..], state);
    }
  }

  /** Settling moves value from accepted to settled, failing removes it; nothing else changes. */
  lemma {:induction false} ResolveAllSums(hs: seq<HtlcRecord>, a: Answer)
    ensures var r := ResolveAll(hs, a);
            && StateMsat(r, Accepted) <= StateMsat(hs, Accepted)
            && (a.ResolveWith? ==> CountedMsat(r) == CountedMsat(hs))
            && (a.FailWith? ==> StateMsat(r, Settled) == StateMsat(hs, Settled))
  {
    var r := ResolveAll(hs, a);
    if hs != [] {
      if FirstStuck(hs) == 0 {
        assert r == hs;
      } else {
        assert r[1..] == ResolveAll(hs[1..], a);
        ResolveAllSums(hs[1..], a);
      }
    }
  }

  lemma StoredSums(hs: seq<HtlcRecord>, state: HtlcState)
    ensures StateMsat(StoredHtlcs(hs), state) == StateMsat(hs, state)
  {
    StateMsatPointwise(StoredHtlcs(hs), hs, state);
  }

  // ---- What every operation keeps ----

  lemma ResolveAllKeepsDistinct(hs: seq<HtlcRecord>, a: Answer)
    requires Distinct(hs)
    ensures Distinct(ResolveAll(hs, a))
  {
    var r := ResolveAll(hs, a);
    forall i, j | 0 <= i < j < |r| ensures !SameHtlc(r[i], r[j]) {
      assert !SameHtlc(hs[i], hs[j]);
    }
  }

  lemma CancelAllKeepsWellFormed(inv: InvoiceRecord)
    requires WellFormed(inv) && inv.status !in {FUNDED, SETTLED}
    ensures WellFormed(CancelAll(inv).0)
    ensures CancelAll(inv).1 ==> CancelAll(inv).0.status.FAILED?
  {
    var hs, r := inv.htlcs, ResolveAll(inv.htlcs, FAIL_DETAILS);
    ResolveAllKeepsDistinct(hs, FAIL_DETAILS);
    ResolveAllSums(hs, FAIL_DETAILS);
    FirstStuckIsEnd(hs);
    forall i | 0 <= i < |r| ensures !r[i].state.Settled? {
      assert !hs[i].state.Settled?;
    }
  }

  lemma SettleKeepsWellFormed(inv: InvoiceRecord, preimage: Bytes, sha256: Bytes -> Bytes)
    requires WellFormed(inv)
    ensures WellFormed(Settle(inv, preimage, sha256).0)
    ensures Settle(inv, preimage, sha256).1 ==> Settle(inv, preimage, sha256).0.status.SETTLED?
  {
    if inv.paymentHash == sha256(preimage) && IsFullyFunded(inv) {
      FullyFundedIsFunded(inv);
      ResolveAllKeepsDistinct(inv.htlcs, ResolveWith(preimage));
      ResolveAllSums(inv.htlcs, ResolveWith(preimage));
      FirstStuckIsEnd(inv.htlcs);
    }
  }

  lemma FullyFundedIsFunded(inv: InvoiceRecord)
    requires WellFormed(inv)
    ensures IsFullyFunded(inv) <==> inv.status in {FUNDED, SETTLED}
  {
    if inv.status.FAILED? {
      StateMsatAbsent(inv.htlcs, Accepted);
      StateMsatAbsent(inv.htlcs, Settled);
    }
  }

  lemma HandleHtlcKeepsWellFormed(inv: InvoiceRecord, inc: Incoming, decodeOk: bool, now: int)
    requires WellFormed(inv)
    ensures WellFormed(HandleHtlc(inv, inc, decodeOk, now).0)
  {
    var h := FromCln(inc, now);
    var inv' := HandleHtlc(inv, inc, decodeOk, now).0;
    match FindHtlc(inv.htlcs, h) {
      case Some(n) =>
        StateMsatPointwise(inv'.htlcs, inv.htlcs, Accepted);
        StateMsatPointwise(inv'.htlcs, inv.htlcs, Settled);
        forall i, j | 0 <= i < j < |inv'.htlcs| ensures !SameHtlc(inv'.htlcs[i], inv'.htlcs[j]) {
          assert !SameHtlc(inv.htlcs[i], inv.htlcs[j]);
        }
      case None =>
        var added := inv'.htlcs[|inv.htlcs|];
        assert inv'.htlcs == inv.htlcs + [added];
        StateMsatAppend(inv.htlcs, added, Accepted);
        StateMsatAppend(inv.htlcs, added, Settled);
        forall i, j | 0 <= i < j < |inv'.htlcs| ensures !SameHtlc(inv'.htlcs[i], inv'.htlcs[j]) {
          if j < |inv.htlcs| {
            assert !SameHtlc(inv.htlcs[i], inv.htlcs[j]);
          } else {
            assert !SameHtlc(inv.htlcs[i], h);
          }
        }
    }
  }

  lemma StoredKeepsWellFormed(inv: InvoiceRecord)
    ensures WellFormed(Stored(inv)) <==> WellFormed(inv)
  {
    StoredSums(inv.htlcs, Accepted);
    StoredSums(inv.htlcs, Settled);
    var a, b := inv.htlcs, StoredHtlcs(inv.htlcs);
    assert forall st :: Has(b, st) ==> Has(a, st);
    forall st | Has(a, st) ensures Has(b, st) {
      var i :| 0 <= i < |a| && a[i].state == st;
      assert b[i].state == st;
    }
    assert forall i, j :: 0 <= i < j < |a| ==> (SameHtlc(a[i], a[j]) <==> SameHtlc(b[i], b[j]));
  }

  // ---- Final states, replay and retry ----

  /** No operation takes an HTLC out of Settled or Cancelled, and none touches an HTLC that is not there. */
  predicate Extends(a: seq<HtlcRecord>, b: seq<HtlcRecord>)
  {
    && |a| <= |b|
    && forall i :: 0 <= i < |a| ==> SameHtlc(a[i], b[i]) && (a[i].state.Accepted? || a[i].state == b[i].state)
  }

  lemma HandleHtlcExtends(inv: InvoiceRecord, inc: Incoming, decodeOk: bool, now: int)
    ensures Extends(inv.htlcs, HandleHtlc(inv, inc, decodeOk, now).0.htlcs)
  {
  }

  /** After a reload the node replays an HTLC: the request is attached again and no sum, state or status changes. */
  lemma ReplayChangesNoSum(inv: InvoiceRecord, inc: Incoming, decodeOk: bool, now: int, n: nat)
    requires n < |inv.htlcs| && SameHtlc(inv.htlcs[n], FromCln(inc, now))
    ensures var (inv', changed) := HandleHtlc(Stored(inv), inc, decodeOk, now);
            && !changed && inv'.status == inv.status
            && Stored(inv') == Stored(inv)
            && (exists m :: 0 <= m <= n && SameHtlc(inv.htlcs[m], FromCln(inc, now)) && inv'.htlcs[m].callback.Pending?)
            && forall st :: StateMsat(inv'.htlcs, st) == StateMsat(inv.htlcs, st)
  {
    var (inv', changed) := HandleHtlc(Stored(inv), inc, decodeOk, now);
    assert SameHtlc(Stored(inv).htlcs[n], FromCln(inc, now));
    var m := FindHtlc(Stored(inv).htlcs, FromCln(inc, now)).value;
    assert SameHtlc(inv.htlcs[m], FromCln(inc, now)) && inv'.htlcs[m].callback.Pending?;
    forall st ensures StateMsat(inv'.htlcs, st) == StateMsat(inv.htlcs, st) {
      StateMsatPointwise(inv'.htlcs, inv.htlcs, st);
    }
    assert StoredHtlcs(inv'.htlcs) == StoredHtlcs(inv.htlcs);
  }

  /** Attach a request to every HTLC, as a full replay does. */
  function Reattached(inv: InvoiceRecord): InvoiceRecord
  {
    inv.(htlcs := seq(|inv.htlcs|, i requires 0 <= i < |inv.htlcs| =>
      if inv.htlcs[i].callback.Detached? then inv.htlcs[i].(callback := Pending) else inv.htlcs[i]))
  }

  /** With the requests back, a second pass over the HTLCs answers exactly what the first one left. */
  lemma RetryAnswers(inv: InvoiceRecord, a: Answer)
    ensures var first := inv.(htlcs := ResolveAll(inv.htlcs, a));
            var again := ResolveAll(Reattached(first).htlcs, a);
            && AllAttached(Reattached(first).htlcs) && !Has(again, Accepted)
            && forall i :: 0 <= i < |inv.htlcs| ==>
                 (inv.htlcs[i].state.Accepted? ==> again[i].callback == Answered(a))
                 && (first.htlcs[i].state != inv.htlcs[i].state ==> again[i] == first.htlcs[i])
  {
    FirstStuckIsEnd(Reattached(inv.(htlcs := ResolveAll(inv.htlcs, a))).htlcs);
  }

  /** A retry finds the invoice fully funded and keeps what its HTLCs count. */
  lemma InterruptedIsRetried(inv: InvoiceRecord, a: Answer)
    requires a.ResolveWith?
    ensures var back := Reattached(inv.(htlcs := ResolveAll(inv.htlcs, a)));
            && CountedMsat(back.htlcs) == CountedMsat(inv.htlcs)
            && CountedMsat(ResolveAll(back.htlcs, a)) == CountedMsat(inv.htlcs)
  {
    var first := inv.(htlcs := ResolveAll(inv.htlcs, a));
    var back := Reattached(first);
    ResolveAllSums(inv.htlcs, a);
    StateMsatPointwise(back.htlcs, first.htlcs, Accepted);
    StateMsatPointwise(back.htlcs, first.htlcs, Settled);
    ResolveAllSums(back.htlcs, a);
  }

  /** An interrupted settle leaves an invoice that a retry settles once the requests are back; the
      second run answers only what the first one left. */
  lemma InterruptedSettleCompletes(inv: InvoiceRecord, preimage: Bytes, sha256: Bytes -> Bytes)
    requires inv.paymentHash == sha256(preimage) && IsFullyFunded(inv)
    ensures var first := Settle(inv, preimage, sha256);
            var again := Settle(Reattached(first.0), preimage, sha256);
            && (first.1 <==> AllAttached(inv.htlcs))
            && again.1 && again.0.status.SETTLED? && !Has(again.0.htlcs, Accepted)
            && StateMsat(again.0.htlcs, Settled) == CountedMsat(inv.htlcs)
            && forall i :: 0 <= i < |inv.htlcs| ==>
                 (inv.htlcs[i].state.Accepted? ==> again.0.htlcs[i].callback == Answered(ResolveWith(preimage)))
                 && (first.0.htlcs[i].state != inv.htlcs[i].state ==> again.0.htlcs[i] == first.0.htlcs[i])
  {
    var a := ResolveWith(preimage);
    var first := Settle(inv, preimage, sha256).0;
    InterruptedIsRetried(inv, a);
    RetryAnswers(inv, a);
    assert Reattached(first).htlcs == Reattached(inv.(htlcs := ResolveAll(inv.htlcs, a))).htlcs;
    StateMsatAbsent(ResolveAll(Reattached(first).htlcs, a), Accepted);
  }

  /** A well-formed SETTLED invoice has been paid in full out of settled HTLCs. */
  lemma SettledIsPaid(inv: InvoiceRecord)
    requires WellFormed(inv) && inv.status.SETTLED?
    ensures StateMsat(inv.htlcs, Settled) >= inv.amountMsat
  {
    StateMsatAbsent(inv.htlcs, Accepted);
  }
}
