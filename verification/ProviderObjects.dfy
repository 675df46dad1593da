/** The database sections, the Lightning layer and the swap manager as objects, over the live hold invoices. Each method
    does to the fields and to the invoices it holds what the function of the same name in Provider does to the whole
    state, and the loops over the callback table and the invoices are runs of ProviderRuns. */
module ProviderObjects {
  import opened Common
  import opened Invoices
  import opened Provider
  import opened HoldInvoiceObjects

  /** The fields of the swap manager, seen from the Lightning layer. */
  datatype Rest = Rest(watching: set<Hash>, creating: set<Hash>, toPay: map<Hash, int>)

  /** The invoice stands for a record, and it and its HTLCs are among some objects. */
  ghost predicate Known(inv: HoldInvoice, r: InvoiceRecord, objects: set<object>)
    reads objects
  {
    inv in objects && inv.Valid() && (forall o :: o in inv.incomingHtlcs ==> o in objects) && inv.Record() == r
  }

  /** Every invoice is known, and none stands at two keys. */
  ghost predicate AllKnown(invoices: map<Hash, HoldInvoice>, records: map<Hash, InvoiceRecord>, objects: set<object>)
    reads objects
  {
    && records.Keys == invoices.Keys
    && (forall h :: h in invoices ==> Known(invoices[h], records[h], objects))
    && (forall g, h :: g in invoices && h in invoices && g != h ==> invoices[g] != invoices[h])
  }

  lemma AllKnownWith(invoices: map<Hash, HoldInvoice>, records: map<Hash, InvoiceRecord>, objects: set<object>,
                     k: Hash, inv: HoldInvoice, r: InvoiceRecord, more: set<object>)
    requires AllKnown(invoices, records, objects) && Known(inv, r, more) && objects <= more
    requires forall h :: h in invoices && h != k ==> invoices[h] != inv
    ensures AllKnown(invoices[k := inv], records[k := r], more)
  {
    forall h | h in invoices ensures Known(invoices[h], records[h], more) {
      KnownInMore(invoices[h], records[h], objects, more);
    }
    hide Known;
  }

  lemma AllKnownWithout(
    invoices: map<Hash, HoldInvoice>, records: map<Hash, InvoiceRecord>, objects: set<object>, k: Hash)
    requires AllKnown(invoices, records, objects)
    ensures AllKnown(invoices - {k}, records - {k}, objects)
  {
    hide Known;
  }

  lemma KnownInMore(inv: HoldInvoice, r: InvoiceRecord, objects: set<object>, more: set<object>)
    requires Known(inv, r, objects) && objects <= more
    ensures Known(inv, r, more)
  {
  }

  lemma KnownInRepr(inv: HoldInvoice, objects: set<object>)
    requires inv.Valid() && inv.Repr() <= objects
    ensures Known(inv, inv.Record(), objects)
  {
    assert forall o :: o in inv.incomingHtlcs ==> o in inv.Repr();
  }

  /** The hold_invoices section: a dictionary of live invoices. */
  class HoldInvoices {
    var invoices: map<Hash, HoldInvoice>
    ghost var records: map<Hash, InvoiceRecord>     // what they stand for
    ghost var objects: set<object>                  // the invoices and their HTLCs

    /** Every live invoice and its HTLCs are known, and no two keys hold the same invoice. */
    ghost predicate Valid()
      reads this, objects
    {
      this !in objects && AllKnown(invoices, records, objects)
    }

    constructor ()
      ensures Valid() && invoices == map[] && objects == {} && records == map[]
    {
      invoices, records, objects := map[], map[], {};
    }

    /** An invoice that stands at no other key may stand at k. */
    ghost predicate MayStand(k: Hash, inv: HoldInvoice)
      reads this
    {
      forall h :: h in invoices && h != k ==> invoices[h] != inv
    }

    lemma NewMayStand(k: Hash, inv: HoldInvoice)
      requires Valid() && inv !in objects
      ensures MayStand(k, inv)
    {
      assert forall h :: h in invoices ==> Known(invoices[h], records[h], objects);
    }

    /** Put an invoice in, which stands for a record among some more objects. */
    method Hold(k: Hash, inv: HoldInvoice, ghost r: InvoiceRecord, ghost more: set<object>)
      requires Valid() && MayStand(k, inv) && Known(inv, r, more) && objects <= more && this !in more
      modifies this
      ensures Valid() && invoices == old(invoices)[k := inv] && records == old(records)[k := r] && objects == more
    {
      AllKnownWith(invoices, records, objects, k, inv, r, more);
      hide AllKnown, Known;
      invoices, records, objects := invoices[k := inv], records[k := r], more;
    }

    method Load(k: Hash, r: InvoiceRecord)
      requires Valid()
      modifies this
      ensures Valid() && fresh(objects - old(objects)) && records == old(records)[k := r]
    {
      var inv := new HoldInvoice(r);
      KnownInRepr(inv, objects + inv.Repr());
      Hold(k, inv, r, objects + inv.Repr());
    }

    method Pop(k: Hash)
      requires Valid()
      modifies this
      ensures Valid() && invoices == old(invoices) - {k} && objects == old(objects)
      ensures records == old(records) - {k}
    {
      AllKnownWithout(invoices, records, objects, k);
      hide AllKnown, Known;
      invoices, records := invoices - {k}, records - {k};
    }

    /** The invoices are what the records say. */
    lemma Stands(k: Hash)
      requires Valid()
      ensures records.Keys == invoices.Keys
      ensures k in invoices ==> records[k] == invoices[k].Record() && Known(invoices[k], records[k], objects)
    {
    }

    /** The invoices are all valid again after a method call on the one at k. */
    twostate lemma OneChanged(k: Hash)
      requires old(Valid()) && k in invoices && invoices == old(invoices)
      requires old(objects) <= objects && this !in objects
      requires records == old(records)[k := invoices[k].Record()] && Known(invoices[k], records[k], objects)
      requires forall h :: h in invoices && h != k ==> unchanged(invoices[h])
      requires forall o: Htlc :: o in old(objects) && o.owner != invoices[k] ==> unchanged(o)
      ensures Valid()
    {
      forall h | h in invoices && h != k ensures Known(invoices[h], records[h], objects) {
        assert old(Known(invoices[h], records[h], objects));
        SameRecord(invoices[h]);
      }
    }

    /** An invoice with unchanged HTLCs has the same record. */
    twostate lemma SameRecord(inv: HoldInvoice)
      requires unchanged(inv) && forall o :: o in inv.incomingHtlcs ==> unchanged(o)
      ensures inv.Record() == old(inv.Record())
    {
      forall i | 0 <= i < |inv.incomingHtlcs|
        ensures inv.incomingHtlcs[i].Record() == old(inv.incomingHtlcs[i].Record())
      {
        assert inv.incomingHtlcs[i] in inv.incomingHtlcs;
      }
    }

    /** And after a change of an invoice that is not among them. */
    twostate lemma OutsideChanged()
      requires old(Valid()) && invoices == old(invoices) && objects == old(objects) && records == old(records)
      requires forall h :: h in invoices ==> unchanged(invoices[h])
      requires forall o: Htlc :: o in objects ==> unchanged(o)
      ensures Valid()
    {
      forall h | h in invoices ensures Known(invoices[h], records[h], objects) {
        assert old(Known(invoices[h], records[h], objects));
        SameRecord(invoices[h]);
      }
    }

    /** settle on the live invoice at k. */
    method SettleLive(k: Hash, preimage: Bytes, sha256: Bytes -> Bytes) returns (ok: bool)
      requires Valid() && k in invoices && k in records
      modifies `records, objects
      ensures Valid() && invoices == old(invoices) && objects == old(objects)
      ensures records == old(records)[k := Settle(old(records[k]), preimage, sha256).0]
      ensures ok == Settle(old(records[k]), preimage, sha256).1
    {
      hide Settle, HoldInvoice.Record;
      var inv := invoices[k];
      KnownRepr(inv, records[k], objects);
      ok := inv.SettleInvoice(preimage, sha256);
      records := records[k := inv.Record()];
      OneChanged(k);
    }

    /** cancel_all_htlcs on the live invoice at k. */
    method CancelLive(k: Hash) returns (ok: bool)
      requires Valid() && k in invoices && k in records
      modifies `records, objects
      ensures Valid() && invoices == old(invoices) && objects == old(objects)
      ensures records == old(records)[k := CancelAll(old(records[k])).0]
      ensures ok == CancelAll(old(records[k])).1
      ensures invoices[k].incomingHtlcs == old(invoices[k].incomingHtlcs)
      ensures ok <==> forall h :: h in invoices[k].incomingHtlcs && old(h.state).Accepted? ==>
                        !old(h.requestCallback).Detached?
      ensures ok ==> invoices[k].GivenTo(old(Records(invoices[k].incomingHtlcs)), FailWith("400F"))
    {
      hide CancelAll, HoldInvoice.Record;
      var inv := invoices[k];
      KnownRepr(inv, records[k], objects);
      ok := inv.CancelAllHtlcs();
      records := records[k := inv.Record()];
      OneChanged(k);
    }

    /** handle_htlc on the live invoice at k. */
    method AcceptLive(k: Hash, inc: Incoming, decodeOk: bool, now: int) returns (changed: bool)
      requires Valid() && k in invoices && k in records
      modifies `records, `objects, objects
      ensures Valid() && fresh(objects - old(objects)) && invoices == old(invoices)
      ensures records == old(records)[k := HandleHtlc(old(records[k]), inc, decodeOk, now).0]
      ensures changed == HandleHtlc(old(records[k]), inc, decodeOk, now).1
    {
      hide HandleHtlc, HoldInvoice.Record;
      var inv := invoices[k];
      KnownRepr(inv, records[k], objects);
      changed := inv.AcceptHtlc(inc, decodeOk, now);
      objects, records := objects + inv.Repr(), records[k := inv.Record()];
      KnownInRepr(inv, objects);
      OneChanged(k);
    }

    /** What is left without the invoice at k. */
    lemma PopLeavesOut(k: Hash)
      requires Valid() && k in invoices
      ensures forall h :: h in invoices - {k} ==> (invoices - {k})[h] != invoices[k]
    {
    }

    /** attach_prepay_invoice on an invoice that is not in the dictionary. */
    method AttachOutside(inv: HoldInvoice, ghost r: InvoiceRecord, prepayHash: Hash) returns (ok: bool)
      requires Valid() && Known(inv, r, objects) && forall h :: h in invoices ==> invoices[h] != inv
      modifies inv
      ensures Valid() && (ok <==> r.associated.None?)
      ensures Known(inv, if ok then r.(associated := Some(prepayHash)) else r, objects)
    {
      ok := inv.AttachPrepayInvoice(prepayHash);
      OutsideChanged();
    }
  }

  class Database {
    const held: HoldInvoices
    var swaps: map<Hash, Swap>
    var preimages: map<Hash, Bytes>
    var tracked: Image           // what the durable text would hold with the pending changes
    var disk: Image

    ghost predicate Valid()
      reads held, held.objects
    {
      held.Valid() && this !in held.objects
    }

    ghost function Live(): Image
      reads this, held
    {
      Image(swaps, held.records, preimages)
    }

    /** Loading: every stored invoice becomes an object. `keys` lists them. */
    constructor (im: Image, keys: seq<Hash>)
      requires (set k | k in keys) == im.invoices.Keys
      ensures Valid() && Live() == im && tracked == im && disk == im && fresh(held) && fresh(held.objects)
    {
      hide AllKnown;
      held := new HoldInvoices();
      swaps, preimages := im.swaps, im.preimages;
      tracked, disk := im, im;
      new;
      for i := 0 to |keys|
        invariant held.Valid() && fresh(held.objects) && this !in held.objects
        invariant held.records.Keys == set k | k in keys[..i]
        invariant forall h :: h in held.records ==> h in im.invoices && held.records[h] == im.invoices[h]
        modifies held
      {
        var k := keys[i];
        assert k in set x | x in keys;
        assert keys[..i + 1] == keys[..i] + [k];
        held.Load(k, im.invoices[k]);
      }
      assert keys[..|keys|] == keys;
      assert held.records == im.invoices;
    }

    /** JsonDB.write: consolidate the live tree, or append the pending changes. */
    method Write(consolidate: bool)
      requires Valid()
      modifies `tracked, `disk
      ensures Valid() && held.records == old(held.records)
      ensures tracked == if consolidate then Dump(Live()) else old(tracked)
      ensures disk == tracked
    {
      hide HoldInvoices.Valid;
      if consolidate {
        tracked := DumpLive();
      }
      disk := tracked;
    }

    /** What dumping the live tree writes. */
    method DumpLive() returns (im: Image)
      requires Valid()
      ensures im == Dump(Live())
    {
      im := Image(swaps, map h | h in held.invoices :: Stored(held.invoices[h].Record()), preimages);
    }

    method SetSwap(k: Hash, swap: Swap)
      requires Valid()
      modifies `swaps, `tracked
      ensures Valid() && held.records == old(held.records)
      ensures swaps == old(swaps)[k := swap]
      ensures tracked == old(tracked).(swaps := old(tracked).swaps[k := swap])
    {
      swaps := swaps[k := swap];
      tracked := tracked.(swaps := tracked.swaps[k := swap]);
    }

    method PopSwap(k: Hash)
      requires Valid()
      modifies `swaps, `tracked
      ensures Valid() && held.records == old(held.records)
      ensures swaps == old(swaps) - {k}
      ensures tracked == old(tracked).(swaps := old(tracked).swaps - {k})
    {
      swaps := swaps - {k};
      tracked := tracked.(swaps := tracked.swaps - {k});
    }

    method SetInvoice(k: Hash, inv: HoldInvoice, ghost r: InvoiceRecord, ghost more: set<object>)
      requires Valid() && held.MayStand(k, inv) && Known(inv, r, more) && held.objects <= more && {this, held} !! more
      modifies held, `tracked
      ensures Valid() && held.invoices == old(held.invoices)[k := inv] && held.objects == more
      ensures held.records == old(held.records)[k := r]
      ensures tracked == old(tracked).(invoices := old(tracked).invoices[k := Stored(r)])
    {
      hide HoldInvoices.Valid, HoldInvoices.MayStand;
      tracked := tracked.(invoices := tracked.invoices[k := Stored(inv.Record())]);
      hide Known;
      held.Hold(k, inv, r, more);
    }

    method PopInvoice(k: Hash)
      requires Valid()
      modifies held, `tracked
      ensures Valid() && held.invoices == old(held.invoices) - {k} && held.objects == old(held.objects)
      ensures held.records == old(held.records) - {k}
      ensures tracked == old(tracked).(invoices := old(tracked).invoices - {k})
    {
      hide HoldInvoices.Valid;
      held.Pop(k);
      tracked := tracked.(invoices := tracked.invoices - {k});
    }

    method PopPreimage(k: Hash)
      requires Valid()
      modifies `preimages, `tracked
      ensures Valid() && held.records == old(held.records)
      ensures preimages == old(preimages) - {k}
      ensures tracked == old(tracked).(preimages := old(tracked).preimages - {k})
    {
      preimages := preimages - {k};
      tracked := tracked.(preimages := tracked.preimages - {k});
    }

    method SetPreimage(k: Hash, p: Bytes)
      requires Valid()
      modifies `preimages, `tracked
      ensures Valid() && held.records == old(held.records)
      ensures preimages == old(preimages)[k := p]
      ensures tracked == old(tracked).(preimages := old(tracked).preimages[k := p])
    {
      preimages := preimages[k := p];
      tracked := tracked.(preimages := tracked.preimages[k := p]);
    }
  }

  class CLNLightning {
    const db: Database
    var callbacks: set<Hash>
    var sweep: set<Hash>          // what is left of the copy of the callback table that is being worked through

    ghost function With(r: Rest): State
      reads this, db, db.held
    {
      State(db.Live(), db.tracked, db.disk, callbacks, sweep, r.watching, r.creating, r.toPay)
    }

    constructor (db: Database)
      ensures this.db == db && callbacks == {} && sweep == {}
    {
      this.db := db;
      callbacks, sweep := {}, {};
    }

    /** update_invoice: the live object is popped, set again and written. */
    method UpdateInvoice(k: Hash, consolidate: bool, ghost r: Rest)
      requires db.Valid() && k in db.held.invoices
      modifies db, db.held
      ensures db.Valid() && db.held.objects == old(db.held.objects)
      ensures k in old(db.held.records) && With(r) == Provider.UpdateInvoice(old(With(r)), k, consolidate)
    {
      hide HoldInvoices.Valid, Dump;
      db.held.Stands(k);
      ghost var s, inv := With(r), db.held.records[k];
      PopAndSet(k);
      assert s.mem.invoices[k := inv] == s.mem.invoices;
      assert With(r) == Provider.SetInvoice(s, k, inv);
      db.Write(consolidate);
    }

    /** The live object is taken out and put back. */
    method PopAndSet(k: Hash)
      requires db.Valid() && k in db.held.invoices
      modifies db.held, db`tracked
      ensures db.Valid() && db.held.objects == old(db.held.objects) && k in old(db.held.records)
      ensures db.held.records == old(db.held.records)
      ensures db.tracked == old(db.tracked).(invoices := old(db.tracked).invoices[k := Stored(old(db.held.records)[k])])
    {
      var inv := db.held.invoices[k];
      ghost var records, tracked, r := db.held.records, db.tracked.invoices, db.held.records[k];
      PopThenSet(records, k, r);
      PopThenSet(tracked, k, Stored(r));
      assert records[k := r] == records;
      hide Known, Stored;
      db.PopInvoice(k);
      hide HoldInvoices.Valid;
      db.SetInvoice(k, inv, r, db.held.objects);
    }

    /** save_hold_invoice */
    method SaveHoldInvoice(
      k: Hash, inv: HoldInvoice, consolidate: bool, ghost i: InvoiceRecord, ghost more: set<object>,
                           ghost r: Rest)
      requires db.Valid() && db.held.MayStand(k, inv) && Known(inv, i, more)
      requires db.held.objects <= more && {this, db, db.held} !! more
      modifies db, db.held
      ensures db.Valid() && db.held.objects == more && db.held.invoices == old(db.held.invoices)[k := inv]
      ensures With(r) == Provider.SaveHoldInvoice(old(With(r)), k, i, consolidate)
    {
      hide HoldInvoices.Valid, HoldInvoices.MayStand, Dump, Known;
      db.SetInvoice(k, inv, i, more);
      db.Write(consolidate);
    }

    /** bundle_payments: the live object is popped, gets its prepay invoice, and is saved; false is the exception for a
        second prepay invoice, which leaves the object popped. */
    method BundlePayments(k: Hash, prepayHash: Hash, consolidate: bool, ghost r: Rest) returns (ok: bool)
      requires db.Valid() && k in db.held.invoices && this !in db.held.objects
      modifies db, db.held, db.held.objects
      ensures db.Valid() && db.held.objects == old(db.held.objects) && k in old(db.held.records)
      ensures ok <==> old(db.held.records)[k].associated.None?
      ensures With(r) == if ok then
                           Provider.SaveHoldInvoice(old(With(r)), k,
                                                    old(db.held.records)[k].(associated := Some(prepayHash)),
                                                    consolidate)
                         else Provider.PopInvoice(old(With(r)), k)
    {
      hide HoldInvoices.Valid, Dump, Known;
      var current := db.held.invoices[k];
      db.held.Stands(k);
      ghost var was := db.held.records[k];
      ghost var now := was.(associated := Some(prepayHash));
      PopThenSet(db.held.records, k, now);
      PopThenSet(db.tracked.invoices, k, Stored(now));
      db.held.PopLeavesOut(k);
      db.PopInvoice(k);
      ok := db.held.AttachOutside(current, was, prepayHash);
      if ok {
        SaveHoldInvoice(k, current, consolidate, now, db.held.objects, r);
      }
    }

    /** delete_hold_invoice without the write. */
    method DropHoldInvoice(k: Hash, ghost r: Rest)
      requires db.Valid() && this !in db.held.objects
      modifies this`callbacks, db, db.held
      ensures db.Valid() && db.held.objects == old(db.held.objects)
      ensures With(r) == Provider.DropHoldInvoice(old(With(r)), k) && k !in db.held.invoices
    {
      hide HoldInvoices.Valid;
      callbacks := callbacks - {k};
      db.PopInvoice(k);
    }

    method DeleteHoldInvoice(k: Hash, consolidate: bool, ghost r: Rest)
      requires db.Valid() && this !in db.held.objects
      modifies this`callbacks, db, db.held
      ensures db.Valid() && db.held.objects == old(db.held.objects)
      ensures With(r) == Provider.DeleteHoldInvoice(old(With(r)), k, consolidate) && k !in db.held.invoices
    {
      hide HoldInvoices.Valid, Dump;
      db.held.Stands(k);
      var there := k in db.held.invoices;
      DropHoldInvoice(k, r);
      if there {
        db.Write(consolidate);
      }
    }

    /** plugin_htlc_accepted_hook on the live invoice. */
    method HtlcAccepted(k: Hash, inc: Incoming, decodeOk: bool, now: int, consolidate: bool, ghost r: Rest)
      requires db.Valid() && this !in db.held.objects
      modifies db, db.held, db.held.objects
      ensures db.Valid() && fresh(db.held.objects - old(db.held.objects))
      ensures With(r) == Provider.HtlcAccepted(old(With(r)), k, inc, decodeOk, now, consolidate)
    {
      hide HoldInvoices.Valid, Dump, HandleHtlc, Provider.UpdateInvoice;
      db.held.Stands(k);
      if k in db.held.invoices {
        var changed := db.held.AcceptLive(k, inc, decodeOk, now);
        if changed {
          UpdateInvoice(k, consolidate, r);
        }
      }
    }

    /** check_invoice_expiry on the live invoice. */
    method CheckInvoiceExpiry(k: Hash, now: int, consolidate: bool, ghost r: Rest)
      returns (o: Outcome, deleted: bool, ghost cancelled: Option<InvoiceRecord>)
      requires db.Valid() && this !in db.held.objects
      modifies this`callbacks, db, db.held, db.held.objects
      ensures db.Valid() && db.held.objects == old(db.held.objects)
      ensures Expiry(With(r), o, cancelled) == Provider.CheckInvoiceExpiry(old(With(r)), k, now, consolidate)
      ensures deleted <==> o.Done? && ExpiresNow(old(With(r)), k, now)
      ensures old(k in db.held.invoices && db.held.invoices[k].createdAt + db.held.invoices[k].expiry < now
                  && db.held.invoices[k].fundingStatus !in {FUNDED, SETTLED}) ==>
                var inv := old(db.held.invoices)[k];
                var wasAttached := forall h :: h in old(inv.incomingHtlcs) && old(h.state).Accepted? ==>
                                     !old(h.requestCallback).Detached?;
                && inv.incomingHtlcs == old(inv.incomingHtlcs)
                && (wasAttached ==> inv.GivenTo(old(Records(inv.incomingHtlcs)), FailWith("400F")))
                && (deleted ==> wasAttached && k !in db.held.invoices)
                && (!deleted ==> o.Raised? && db.held.invoices == old(db.held.invoices))
                && (!deleted && wasAttached ==>
                      old(inv.associatedInvoice).Some? && old(inv.associatedInvoice).value in db.held.invoices)
      ensures old(k !in db.held.invoices || db.held.invoices[k].createdAt + db.held.invoices[k].expiry >= now
                  || db.held.invoices[k].fundingStatus in {FUNDED, SETTLED}) ==>
                o.Done? && !deleted && With(r) == old(With(r)) && db.held.invoices == old(db.held.invoices)
    {
      hide HoldInvoices.Valid, Dump, CancelAll, Provider.DeleteHoldInvoice;
      db.held.Stands(k);
      o, deleted, cancelled := Done, false, None;
      if k in db.held.invoices {
        var inv := db.held.invoices[k];
        if inv.createdAt + inv.expiry < now && inv.fundingStatus !in {FUNDED, SETTLED} {
          ghost var was := inv.Record();
          CancelKeepsAssociated(was);
          var ok := db.held.CancelLive(k);
          db.held.Stands(k);
          cancelled := Some(inv.Record());
          if !ok {
            return Raised, false, cancelled;
          }
          if inv.associatedInvoice.Some? && inv.associatedInvoice.value in db.held.invoices {
            return Raised, false, cancelled;
          }
          DeleteHoldInvoice(k, consolidate, r);
          deleted := true;
        }
      }
    }

    /** The part of a callback_handler turn that redeems the live prepay invoice first. */
    method SettlePrepay(k: Hash, sha256: Bytes -> Bytes, consolidate: bool, ghost r: Rest)
      returns (o: Outcome, proceed: bool, ghost settled: Option<InvoiceRecord>)
      requires db.Valid() && k in db.held.invoices && this !in db.held.objects
      modifies db, db.held, db.held.objects
      ensures db.Valid() && db.held.objects == old(db.held.objects)
      ensures k in old(db.held.records)
      ensures PrepayStep(With(r), o, proceed, settled) == Provider.SettlePrepay(old(With(r)), k, sha256, consolidate)
    {
      hide HoldInvoices.Valid, Dump, Settle, Provider.UpdateInvoice;
      db.held.Stands(k);
      settled := None;
      var prepay := db.held.invoices[k].associatedInvoice;
      if prepay.None? {
        return Done, true, None;
      }
      var q := prepay.value;
      if q !in db.held.invoices {
        return Raised, false, None;
      }
      db.held.Stands(q);
      if !db.held.invoices[q].fundingStatus.FUNDED? {
        return Done, false, None;
      }
      if q !in db.preimages || sha256(db.preimages[q]) != q {
        return Raised, false, None;
      }
      var ok := db.held.SettleLive(q, db.preimages[q], sha256);
      db.held.Stands(q);
      settled := Some(db.held.invoices[q].Record());
      if !ok {
        return Raised, false, settled;
      }
      UpdateInvoice(q, consolidate, r);
      return Done, true, settled;
    }

    /** One pass of monitor_expiries over a copy of the keys: it ends with the first invoice that is deleted, after
        which the loop starts again, or with an exception. */
    method MonitorExpiries(keys: seq<Hash>, now: int, consolidate: bool, ghost r: Rest) returns (o: Outcome)
      requires db.Valid() && this !in db.held.objects
      modifies this`callbacks, db, db.held, db.held.objects
      ensures db.Valid() && db.held.objects == old(db.held.objects)
      ensures (With(r), o) == ExpiryPass(old(With(r)), keys, now, consolidate)
    {
      hide HoldInvoices.Valid, Provider.CheckInvoiceExpiry;
      var i := 0;
      assert keys[0..] == keys;
      while i < |keys|
        invariant 0 <= i <= |keys|
        invariant db.Valid() && db.held.objects == old(db.held.objects)
        invariant ExpiryPass(With(r), keys[i..], now, consolidate) == ExpiryPass(old(With(r)), keys, now, consolidate)
      {
        assert keys[i..][0] == keys[i] && keys[i..][1..] == keys[i + 1..];
        var raised, deleted, _ := CheckInvoiceExpiry(keys[i], now, consolidate, r);
        if raised.Raised? || deleted {
          return raised;
        }
        i := i + 1;
      }
      return Done;
    }
  }

  lemma KnownRepr(inv: HoldInvoice, r: InvoiceRecord, objects: set<object>)
    requires Known(inv, r, objects)
    ensures inv.Valid() && inv.Repr() <= objects && objects + inv.Repr() == objects && inv.Record() == r
    ensures forall o :: o in inv.incomingHtlcs ==> o in objects && o.owner == inv
  {
  }

  lemma CancelKeepsAssociated(inv: InvoiceRecord)
    ensures CancelAll(inv).0.associated == inv.associated
  {
  }

  lemma PopThenSet<T>(m: map<Hash, T>, k: Hash, v: T)
    ensures (m - {k})[k := v] == m[k := v]
  {
  }

  predicate ExpiresNow(s: State, k: Hash, now: int)
  {
    k in s.mem.invoices
    && s.mem.invoices[k].createdAt + s.mem.invoices[k].expiry < now
    && s.mem.invoices[k].status !in {FUNDED, SETTLED}
  }

  /** The expiry checks of one pass. */
  function ExpiryPass(s: State, keys: seq<Hash>, now: int, consolidate: bool): (State, Outcome)
    decreases |keys|
  {
    if keys == [] then (s, Done)
    else
      var e := Provider.CheckInvoiceExpiry(s, keys[0], now, consolidate);
      if e.outcome.Raised? || ExpiresNow(s, keys[0], now) then (e.state, e.outcome)
      else ExpiryPass(e.state, keys[1..], now, consolidate)
  }
}
