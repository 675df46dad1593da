/** The swap manager as an object over the database and the Lightning layer, and its loops as runs of ProviderRuns. */
module SwapManagerObjects {
  import opened Common
  import opened Invoices
  import opened LockScript
  import opened Provider
  import opened ProviderRuns
  import opened HoldInvoiceObjects
  import opened ProviderObjects

  /** The outputs paying to a lockup address, in the order the backend lists them. */
  method FindOutput(swap: Swap, txos: seq<Txo>) returns (r: Option<Txo>)
    ensures r == FirstUsable(swap, txos)
  {
    assert txos[0..] == txos;
    for i := 0 to |txos|
      invariant FirstUsable(swap, txos[i..]) == FirstUsable(swap, txos)
    {
      assert txos[i..][0] == txos[i] && txos[i..][1..] == txos[i + 1..];
      if !(swap.isReverse && txos[i].value < swap.onchainAmount) {
        return Some(txos[i]);
      }
    }
    return None;
  }

  /** The loop over the inputs of a spender. */
  method FindPreimageIn(inputs: seq<Input>, k: Hash, sha256: Bytes -> Bytes) returns (r: Search)
    ensures r == FindPreimage(inputs, k, sha256)
  {
    assert inputs[0..] == inputs;
    for i := 0 to |inputs|
      invariant FindPreimage(inputs[i..], k, sha256) == FindPreimage(inputs, k, sha256)
    {
      assert inputs[i..][0] == inputs[i] && inputs[i..][1..] == inputs[i + 1..];
      var elements := inputs[i].elements;
      if |elements| < 2 {
        return IndexError;
      }
      if sha256(elements[1]) == k {
        return Found(elements[1]);
      }
    }
    return Missing;
  }

  class SwapManager {
    const db: Database
    const ln: CLNLightning
    var watching: set<Hash>
    var creating: set<Hash>
    var toPay: map<Hash, int>

    ghost predicate Valid()
      reads ln, db, db.held, db.held.objects
    {
      ln.db == db && db.Valid() && this !in db.held.objects && ln !in db.held.objects
    }

    function Own(): Rest
      reads this
    {
      Rest(watching, creating, toPay)
    }

    ghost function State(): Provider.State
      reads this, ln, db, db.held
    {
      Provider.State.State(db.Live(), db.tracked, db.disk, ln.callbacks, ln.sweep, watching, creating, toPay)
    }

    constructor (ln: CLNLightning)
      requires ln.db.Valid() && ln !in ln.db.held.objects
      ensures Valid() && this.ln == ln && db == ln.db && watching == {} && creating == {} && toPay == map[]
    {
      this.ln := ln;
      db := ln.db;
      watching, creating, toPay := {}, {}, map[];
    }

    /** __init__ and the start of main_loop on a database that was just loaded: open normal swaps are registered for
        their callback or, without an invoice, dropped; what is not redeemed is watched. `keys` lists the swaps. */
    method Startup(keys: seq<Hash>)
      requires Valid() && (set k | k in keys) == db.swaps.Keys
      requires db.Live() == db.tracked == db.disk
      requires ln.callbacks == {} && ln.sweep == {} && watching == {} && creating == {} && toPay == map[]
      modifies this, ln, db
      ensures Valid() && State() == Restart(old(State()))
    {
      hide HoldInvoices.Valid;
      ghost var im := db.disk;
      for i := 0 to |keys|
        invariant db.swaps == Remaining(im, keys[..i])
        invariant db.tracked == im.(swaps := db.swaps) && db.disk == im
        invariant db.Valid() && db.held.records == im.invoices && db.preimages == im.preimages
        invariant ln.callbacks == Registered(im, keys[..i])
        modifies db`swaps, db`tracked, ln`callbacks
      {
        var k := keys[i];
        assert k in im.swaps by {
          assert k in (set x | x in keys);
        }
        SeenStep(im, keys, i);
        db.held.Stands(k);
        if k in db.swaps {
          var swap := db.swaps[k];
          if !swap.isReverse && !swap.isRedeemed {
            if k in db.held.invoices {
              ln.callbacks := ln.callbacks + {k};
            } else {
              db.PopSwap(k);
            }
          }
        }
      }
      assert keys[..|keys|] == keys;
      AllKeysSeen(im, keys);
      watching := set k | k in db.swaps && !db.swaps[k].isRedeemed;
    }

    /** _fail_swap */
    method FailSwap(k: Hash, swap: Swap, consolidate: bool) returns (o: Outcome)
      requires Valid()
      modifies this`watching, this`toPay, db`swaps, db`tracked, db`disk
      ensures Valid() && (State(), o) == Provider.FailSwap(old(State()), k, swap, consolidate)
    {
      hide HoldInvoices.Valid, Dump;
      watching := watching - {k};
      toPay := toPay - {k};
      if swap.fundingTxid.None? || swap.isRedeemed {
        if k !in db.swaps {
          return Raised;
        }
        db.PopSwap(k);
      }
      db.Write(consolidate);
      return Done;
    }

    method HoldInvoiceCallback(k: Hash, f: FundingResult, consolidate: bool) returns (o: Outcome, attempted: bool)
      requires Valid()
      modifies this`watching, this`toPay, db`swaps, db`tracked, db`disk
      ensures Valid() && FundingStep(State(), o, attempted) ==
              Provider.HoldInvoiceCallback(old(State()), k, f, consolidate)
    {
      hide HoldInvoices.Valid, Dump, Provider.FailSwap;
      o, attempted := Done, false;
      if k in db.swaps && db.swaps[k].fundingTxid.None? {
        var swap := db.swaps[k];
        match f {
          case CreateRaises =>
            o := Raised;
          case NoTransaction =>
            o := FailSwap(k, swap, consolidate);
          case SendFails(txid) =>
            var swap' := swap.(fundingTxid := Some(txid));
            db.SetSwap(k, swap');
            o := FailSwap(k, swap', consolidate);
            attempted := true;
          case Sent(txid) =>
            db.SetSwap(k, swap.(fundingTxid := Some(txid)));
            attempted := true;
        }
      }
    }

    /** One turn of callback_handler. */
    method CallbackTurn(k: Hash, f: FundingResult, sha256: Bytes -> Bytes, consolidate: bool, consolidateOnFail: bool)
      returns (o: Outcome, attempted: bool, ghost settled: Option<InvoiceRecord>)
      requires Valid()
      modifies this, ln, db, db.held, db.held.objects
      ensures Valid() && db.held.objects == old(db.held.objects)
      ensures Turn(State(), o, attempted, settled)
           == Provider.CallbackTurn(old(State()), k, f, sha256, consolidate, consolidateOnFail)
    {
      hide HoldInvoices.Valid, Dump, Provider.SettlePrepay, Provider.HoldInvoiceCallback;
      db.held.Stands(k);
      o, attempted, settled := Done, false, None;
      if k !in db.held.invoices {
        if k !in ln.callbacks {
          return Raised, false, None;
        }
        ln.callbacks := ln.callbacks - {k};
      } else if db.held.invoices[k].fundingStatus.FUNDED? {
        var proceed;
        o, proceed, settled := ln.SettlePrepay(k, sha256, consolidate, Own());
        if proceed {
          o, attempted := HoldInvoiceCallback(k, f, consolidateOnFail);
          if o.Done? {
            ln.callbacks := ln.callbacks - {k};
          }
        }
      }
    }

    /** One pass of callback_handler over a copy of the callback table; an exception ends it. */
    method CallbackHandler(keys: seq<Hash>, wallet: Hash -> FundingResult, sha256: Bytes -> Bytes,
                           consolidate: bool, consolidateOnFail: bool) returns (o: Outcome)
      requires Valid()
      modifies this, ln, db, db.held, db.held.objects
      ensures Valid() && db.held.objects == old(db.held.objects)
      ensures (State(), o)
           == CallbackPass(old(State()).(sweep := old(ln.callbacks)), keys, wallet, sha256, consolidate,
                            consolidateOnFail)
    {
      hide HoldInvoices.Valid, Provider.CallbackTurn;
      ln.sweep := ln.callbacks;
      assert keys[0..] == keys;
      ghost var begin := State();
      for i := 0 to |keys|
        invariant Valid() && db.held.objects == old(db.held.objects)
        invariant CallbackPass(State(), keys[i..], wallet, sha256, consolidate, consolidateOnFail)
               == CallbackPass(begin, keys, wallet, sha256, consolidate, consolidateOnFail)
      {
        var k := keys[i];
        assert keys[i..][0] == k && keys[i..][1..] == keys[i + 1..];
        var raised, _, _ := CallbackTurn(k, wallet(k), sha256, consolidate, consolidateOnFail);
        if raised.Raised? {
          ln.sweep := {};
          return Raised;
        }
        ln.sweep := ln.sweep - {k};
      }
      return Done;
    }

    /** _finish_normal_swap */
    method FinishNormalSwap(k: Hash, sha256: Bytes -> Bytes, consolidate: bool)
      returns (o: Outcome, ghost settled: Option<InvoiceRecord>)
      requires Valid() && k in db.swaps
      modifies this`watching, ln`callbacks, db, db.held, db.held.objects
      ensures Valid() && db.held.objects == old(db.held.objects)
      ensures (State(), o, settled) == Provider.FinishNormalSwap(old(State()), k, sha256, consolidate)
    {
      hide HoldInvoices.Valid, Dump, Settle;
      db.held.Stands(k);
      var swap := db.swaps[k];
      if swap.preimage.None? || swap.preimage.value == [] || k !in db.held.invoices {
        return Raised, None;
      }
      db.held.Stands(k);
      var ok := db.held.SettleLive(k, swap.preimage.value, sha256);
      db.held.Stands(k);
      settled := Some(db.held.invoices[k].Record());
      if !ok {
        return Raised, settled;
      }
      CleanUp(k, swap.prepayHash, consolidate);
      return Done, settled;
    }

    /** The end of _finish_normal_swap. */
    method CleanUp(k: Hash, prepayHash: Option<Hash>, consolidate: bool)
      requires Valid()
      modifies this`watching, ln`callbacks, db, db.held
      ensures Valid() && db.held.objects == old(db.held.objects)
      ensures var s2 := DropHoldInvoice(old(State()), k);
              var s3 := if prepayHash.Some? then DropHoldInvoice(s2, prepayHash.value) else s2;
              var s4 := PopPreimage(s3, k);
              State() == Provider.Write(PopSwap(s4.(watching := s4.watching - {k}), k), consolidate)
    {
      hide HoldInvoices.Valid, Dump;
      ln.DropHoldInvoice(k, Own());
      if prepayHash.Some? {
        ln.DropHoldInvoice(prepayHash.value, Own());
      }
      db.PopPreimage(k);
      watching := watching - {k};
      db.PopSwap(k);
      db.Write(consolidate);
    }

    /** delete_finished_reverse_swap */
    method DeleteFinished(k: Hash, consolidate: bool)
      requires Valid()
      modifies this`watching, this`toPay, db`swaps, db`tracked, db`disk
      ensures Valid() && State() == Provider.DeleteFinished(old(State()), k, consolidate)
    {
      hide HoldInvoices.Valid, Dump;
      watching := watching - {k};
      toPay := toPay - {k};
      db.PopSwap(k);
      db.Write(consolidate);
    }

    /** The end of _claim_swap. */
    method SignClaim(k: Hash, o: Observation, txo: Txo, locktime: int, revealed: Bytes) returns (tx: Option<SignedTx>)
      requires Valid() && k in db.swaps
      modifies db`swaps, db`tracked
      ensures Valid() && Claim(State(), Done, tx, None) ==
              Provider.SignClaim(old(State()), k, o, txo, locktime, revealed)
    {
      hide HoldInvoices.Valid;
      if txo.spent.Some? || txo.value - o.claimFee < DUST_THRESHOLD {
        return None;
      }
      db.SetSwap(k, db.swaps[k].(spendingTxid := Some(o.claimTxid)));
      return if o.fundingConf > 0 then Some(SignedTx(txo, locktime, revealed, txo.value - o.claimFee)) else None;
    }

    /** The branch of _claim_swap for a swap in which the provider pays on chain. */
    method ClaimNormal(k: Hash, o: Observation, txo: Txo, sha256: Bytes -> Bytes, consolidate: bool)
      returns (r: Outcome, tx: Option<SignedTx>, ghost settled: Option<InvoiceRecord>)
      requires Valid() && k in db.swaps
      modifies this, ln`callbacks, db, db.held, db.held.objects
      ensures Valid() && db.held.objects == old(db.held.objects)
      ensures Claim(State(), r, tx, settled) == Provider.ClaimNormal(old(State()), k, o, txo, sha256, consolidate)
    {
      hide HoldInvoices.Valid, FindPreimage, Provider.FinishNormalSwap, Provider.FailSwap, Provider.SignClaim;
      r, tx, settled := Done, None, None;
      var swap := db.swaps[k];
      if swap.preimage.None? && txo.spent.Some? {
        var found := FindPreimageIn(txo.spent.value.inputs, k, sha256);
        if found.IndexError? {
          return Raised, None, None;
        }
        if found.Found? {
          db.SetSwap(k, swap.(preimage := Some(found.preimage)));
          r, settled := FinishNormalSwap(k, sha256, consolidate);
          return;
        }
        if txo.spent.value.height >= 2 {
          var swap' := swap.(isRedeemed := true);
          db.SetSwap(k, swap');
          r := FailSwap(k, swap', consolidate);
          return;
        }
        if txo.spent.value.height == 0 {
          return Raised, None, None;
        }
      }
      if swap.lock.locktime - o.height <= 0 && !(swap.preimage.Some? && swap.preimage.value != []) {
        tx := SignClaim(k, o, txo, swap.lock.locktime, []);
      }
    }

    /** The branch for a swap in which the client pays on chain. */
    method ClaimReverse(k: Hash, o: Observation, txo: Txo, sha256: Bytes -> Bytes)
      returns (r: Outcome, tx: Option<SignedTx>)
      requires Valid() && k in db.swaps
      modifies this`toPay, db`swaps, db`tracked
      ensures Valid() && Claim(State(), r, tx, None) == Provider.ClaimReverse(old(State()), k, o, txo, sha256)
    {
      hide HoldInvoices.Valid, Provider.SignClaim;
      r, tx := Done, None;
      var swap := db.swaps[k];
      if swap.preimage.Some? {
        tx := SignClaim(k, o, txo, 0, swap.preimage.value);
      } else if k in db.preimages {
        var p := db.preimages[k];
        if sha256(p) != k {
          return Raised, None;
        }
        db.SetSwap(k, swap.(preimage := Some(p)));
        tx := SignClaim(k, o, txo, 0, p);
      } else if o.fundingConf > 0 {
        if swap.lock.locktime - o.height <= MIN_LOCKTIME_DELTA {
          toPay := toPay - {k};
        } else if k !in toPay {
          toPay := toPay[k := 0];
        }
      }
    }

    /** _claim_swap */
    method ClaimSwap(k: Hash, o: Observation, sha256: Bytes -> Bytes, consolidate: bool)
      returns (r: Outcome, tx: Option<SignedTx>, ghost settled: Option<InvoiceRecord>)
      requires Valid() && k in db.swaps
      modifies this, ln`callbacks, db, db.held, db.held.objects
      ensures Valid() && db.held.objects == old(db.held.objects)
      ensures Claim(State(), r, tx, settled) == Provider.ClaimSwap(old(State()), k, o, sha256, consolidate)
    {
      hide HoldInvoices.Valid, FirstUsable, Provider.ClaimNormal, Provider.ClaimReverse, Provider.FailSwap,
           Provider.DeleteFinished;
      r, tx, settled := Done, None, None;
      if !o.upToDate {
        return;
      }
      var swap := db.swaps[k];
      var found := FindOutput(swap, o.txos);
      if found.None? {
        if swap.lock.locktime - o.height <= 0 {
          r := FailSwap(k, swap, consolidate);
        }
        return;
      }
      var txo := found.value;
      swap := Observed(swap, txo);
      db.SetSwap(k, swap);
      if txo.spent.Some? && txo.spent.value.height > 0
         && o.height - txo.spent.value.height > REDEEM_AFTER_DOUBLE_SPENT_DELAY {
        db.SetSwap(k, swap.(isRedeemed := true));
        DeleteFinished(k, consolidate);
      } else if swap.isReverse {
        r, tx := ClaimReverse(k, o, txo, sha256);
      } else {
        r, tx, settled := ClaimNormal(k, o, txo, sha256, consolidate);
      }
    }

    /** create_normal_swap up to the registration; false when an invoice amount is refused. */
    method CreateNormalSwap(r: Request, consolidate: bool) returns (ok: bool)
      requires Valid() && r.paymentHash != r.prepayHash
      modifies this`creating, db, db.held, db.held.objects
      ensures Valid() && fresh(db.held.objects - old(db.held.objects))
      ensures State() == CreateStages(old(State()), r, CreateLimit(r), consolidate)
      ensures ok <==> MainSat(r) > 0 && r.prepaySat > 0
    {
      hide HoldInvoices.Valid, Dump, Provider.SaveHoldInvoice, Provider.Write, Provider.SetPreimage, CreateStages;
      ghost var s0 := State();
      StageIs(s0, r, 0, consolidate);
      if MainSat(r) <= 0 {
        return false;
      }
      SaveNew(r.paymentHash, r.main, MainSat(r), r.now, consolidate);
      StageIs(s0, r, 1, consolidate);
      assert State() == CreateStages(s0, r, 1, consolidate);
      SavePreimage(r.prepayHash, r.prepayPreimage, consolidate);
      StageIs(s0, r, 2, consolidate);
      assert State() == CreateStages(s0, r, 2, consolidate);
      if r.prepaySat <= 0 {
        return false;
      }
      SavePrepayAndSwap(r, consolidate, s0);
      return true;
    }

    /** The stages behind the prepay preimage. */
    method SavePrepayAndSwap(r: Request, consolidate: bool, ghost s0: Provider.State)
      requires Valid() && r.paymentHash != r.prepayHash && MainSat(r) > 0 && r.prepaySat > 0
      requires State() == CreateStages(s0, r, 2, consolidate) && r.paymentHash in db.held.records
               && r.paymentHash in db.held.invoices
      requires db.held.records[r.paymentHash] == NewInvoice(r.paymentHash, r.main, MainSat(r), r.now)
      modifies this`creating, db, db.held, db.held.objects
      ensures Valid() && fresh(db.held.objects - old(db.held.objects))
      ensures State() == CreateStages(s0, r, 5, consolidate)
    {
      hide HoldInvoices.Valid, Dump, Provider.SaveHoldInvoice, Provider.Write, Provider.SetPreimage, CreateStages;
      SaveNew(r.prepayHash, r.prepay, r.prepaySat, r.now, consolidate);
      StageIs(s0, r, 3, consolidate);
      var attached := ln.BundlePayments(r.paymentHash, r.prepayHash, consolidate, Own());
      StageIs(s0, r, 4, consolidate);
      db.SetSwap(r.paymentHash, NewSwap(r));
      creating := creating + {r.paymentHash};
      StageIs(s0, r, 5, consolidate);
    }

    /** A new invoice object, and saving it. */
    method SaveNew(hash: Hash, bolt11: Bolt11, sat: int, now: int, consolidate: bool)
      requires Valid() && sat > 0
      modifies db, db.held
      ensures Valid() && fresh(db.held.objects - old(db.held.objects))
      ensures State() == Provider.SaveHoldInvoice(old(State()), hash, NewInvoice(hash, bolt11, sat, now), consolidate)
      ensures hash in db.held.invoices && db.held.invoices.Keys == old(db.held.invoices.Keys) + {hash}
      ensures db.held.records == old(db.held.records)[hash := NewInvoice(hash, bolt11, sat, now)]
    {
      var inv := new HoldInvoice(NewInvoice(hash, bolt11, sat, now));
      ghost var more := db.held.objects + inv.Repr();
      KnownInRepr(inv, more);
      db.held.NewMayStand(hash, inv);
      hide HoldInvoices.Valid, HoldInvoices.MayStand, Known, Provider.SaveHoldInvoice, HoldInvoice.Repr, NewInvoice;
      ln.SaveHoldInvoice(hash, inv, consolidate, NewInvoice(hash, bolt11, sat, now), more, Own());
    }

    method SavePreimage(k: Hash, p: Bytes, consolidate: bool)
      requires Valid()
      modifies db
      ensures Valid() && db.held.invoices == old(db.held.invoices) && db.held.objects == old(db.held.objects)
      ensures db.held.records == old(db.held.records)
      ensures State() == Provider.Write(SetPreimage(old(State()), k, p), consolidate)
    {
      hide HoldInvoices.Valid, Dump;
      db.SetPreimage(k, p);
      db.Write(consolidate);
    }

    /** The registration at the end of create_normal_swap. */
    method RegisterSwap(k: Hash)
      requires Valid()
      modifies this, ln
      ensures Valid() && State() == Provider.RegisterSwap(old(State()), k)
    {
      hide HoldInvoices.Valid;
      creating := creating - {k};
      watching := watching + {k};
      ln.callbacks := ln.callbacks + {k};
    }

    method CreateReverseSwap(k: Hash, lock: Lock, onchainSat: int, lightningSat: int, preimage: Bytes)
      requires Valid()
      modifies this`watching, db`swaps, db`tracked
      ensures Valid() && State() == CreateReverse(old(State()), k, lock, onchainSat, lightningSat, preimage)
    {
      hide HoldInvoices.Valid;
      db.SetSwap(k, Swap(true, lock, onchainSat, lightningSat, Some(preimage), None, None, None, false));
      watching := watching + {k};
    }
  }

  /** The swaps once some keys were looked at. */
  function Remaining(im: Image, seen: seq<Hash>): map<Hash, Swap>
  {
    map k | k in im.swaps && (k in seen ==> Kept(im, k)) :: im.swaps[k]
  }

  /** The callbacks registered for some keys. */
  function Registered(im: Image, seen: seq<Hash>): set<Hash>
  {
    set k | k in im.swaps && k in seen && !im.swaps[k].isReverse && !im.swaps[k].isRedeemed && k in im.invoices
  }

  lemma SeenStep(im: Image, keys: seq<Hash>, i: nat)
    requires i < |keys| && keys[i] in im.swaps
    ensures var k := keys[i];
            && Remaining(im, keys[..i + 1]) ==
               (if Kept(im, k) then Remaining(im, keys[..i]) else Remaining(im, keys[..i]) - {k})
            && (k in Remaining(im, keys[..i]) ==> Remaining(im, keys[..i])[k] == im.swaps[k])
            && (k !in Remaining(im, keys[..i]) ==> !Kept(im, k))
            && Registered(im, keys[..i + 1])
               == Registered(im, keys[..i])
                  + if !im.swaps[k].isReverse && !im.swaps[k].isRedeemed && k in im.invoices then {k} else {}
  {
    assert keys[..i + 1] == keys[..i] + [keys[i]];
  }

  lemma AllKeysSeen(im: Image, keys: seq<Hash>)
    requires (set k | k in keys) == im.swaps.Keys
    ensures Remaining(im, keys) == map k | k in im.swaps && Kept(im, k) :: im.swaps[k]
    ensures Registered(im, keys)
         == set k | k in im.swaps && !im.swaps[k].isReverse && !im.swaps[k].isRedeemed && k in im.invoices
  {
    assert forall k :: k in im.swaps ==> k in (set x | x in keys);
  }

  /** The turns of one pass. */
  function CallbackPass(s: State, keys: seq<Hash>, wallet: Hash -> FundingResult, sha256: Bytes -> Bytes,
                        consolidate: bool, consolidateOnFail: bool): (State, Outcome)
    decreases |keys|
  {
    if keys == [] then (s, Done)
    else
      var k := keys[0];
      var t := Provider.CallbackTurn(s, k, wallet(k), sha256, consolidate, consolidateOnFail);
      if t.outcome.Raised? then (t.state.(sweep := {}), Raised)
      else CallbackPass(t.state.(sweep := t.state.sweep - {k}), keys[1..], wallet, sha256, consolidate,
                        consolidateOnFail)
  }

  // ---- The loops as runs ----

  lemma TurnKeepsSweep(
    s: State, k: Hash, f: FundingResult, sha256: Bytes -> Bytes, consolidate: bool, consolidateOnFail: bool)
    ensures CallbackTurn(s, k, f, sha256, consolidate, consolidateOnFail).state.sweep == s.sweep
  {
    hide Settle, Dump;
  }

  predicate AllDiffer(keys: seq<Hash>)
  {
    forall i, j :: 0 <= i < j < |keys| ==> keys[i] != keys[j]
  }

  /** A pass over keys that are still to be worked through is a run of their turns. */
  lemma {:induction false} PassIsRun(env: Env, w: World, s: State, keys: seq<Hash>, wallet: Hash -> FundingResult,
                                     consolidate: bool, consolidateOnFail: bool)
    returns (steps: seq<Step>)
    requires AllDiffer(keys) && forall i :: 0 <= i < |keys| ==> keys[i] in s.sweep
    ensures Possible(env, w, s, steps)
    ensures RunOf(env, w, s, steps).1 == CallbackPass(s, keys, wallet, env.sha256, consolidate, consolidateOnFail).0
    ensures |steps| <= |keys|
    ensures forall i :: 0 <= i < |steps| ==>
              steps[i] == TurnStep(keys[i], wallet(keys[i]), consolidate, consolidateOnFail)
    decreases |keys|
  {
    hide CallbackTurn;
    if keys == [] {
      steps := [];
    } else {
      var k := keys[0];
      var st := TurnStep(k, wallet(k), consolidate, consolidateOnFail);
      var (w', s') := Next(env, w, s, st);
      var t := CallbackTurn(s, k, wallet(k), env.sha256, consolidate, consolidateOnFail);
      TurnKeepsSweep(s, k, wallet(k), env.sha256, consolidate, consolidateOnFail);
      if t.outcome.Raised? {
        steps := [st];
        assert Possible(env, w', s', steps[1..]);
      } else {
        var rest := PassIsRun(env, w', s', keys[1..], wallet, consolidate, consolidateOnFail);
        steps := [st] + rest;
        assert steps[1..] == rest;
      }
    }
  }

  /** What callback_handler does in one pass, over a copy of its callback table in any order, is a run that begins with
      StartSweep and goes on with one turn for each key in that order, up to the first exception; so it leads from
      reachable states to reachable states. */
  lemma HandlerIsRun(env: Env, w: World, s: State, keys: seq<Hash>, wallet: Hash -> FundingResult,
                     consolidate: bool, consolidateOnFail: bool)
    returns (steps: seq<Step>)
    requires AllDiffer(keys) && (set k | k in keys) == s.callbacks
    ensures Possible(env, w, s, steps) && 0 < |steps| <= |keys| + 1 && steps[0] == StartSweep
    ensures forall i :: 0 < i < |steps| ==>
              steps[i] == TurnStep(keys[i - 1], wallet(keys[i - 1]), consolidate, consolidateOnFail)
    ensures RunOf(env, w, s, steps).1
         == CallbackPass(s.(sweep := s.callbacks), keys, wallet, env.sha256, consolidate, consolidateOnFail).0
  {
    hide CallbackTurn, CallbackPass;
    forall i | 0 <= i < |keys| ensures keys[i] in s.callbacks {
      assert keys[i] in set k | k in keys;
    }
    var s' := s.(sweep := s.callbacks);
    var rest := PassIsRun(env, w, s', keys, wallet, consolidate, consolidateOnFail);
    steps := [StartSweep] + rest;
    assert steps[1..] == rest;
    assert Next(env, w, s, StartSweep) == (w, s');
  }

  /** A pass of monitor_expiries is a run of expiry steps. */
  lemma {:induction false} ExpiryPassIsRun(env: Env, w: World, s: State, keys: seq<Hash>, now: int, consolidate: bool)
    returns (steps: seq<Step>)
    ensures Possible(env, w, s, steps) && |steps| <= |keys|
    ensures forall i :: 0 <= i < |steps| ==> steps[i] == ExpiryStep(keys[i], now, consolidate)
    ensures RunOf(env, w, s, steps).1 == ExpiryPass(s, keys, now, consolidate).0
    decreases |keys|
  {
    hide CheckInvoiceExpiry;
    if keys == [] {
      steps := [];
    } else {
      var st := ExpiryStep(keys[0], now, consolidate);
      var e := CheckInvoiceExpiry(s, keys[0], now, consolidate);
      var w' := Told(w, keys[0], e.cancelled);
      assert Next(env, w, s, st) == (w', e.state);
      if e.outcome.Raised? || ExpiresNow(s, keys[0], now) {
        steps := [st];
        assert steps[1..] == [];
      } else {
        var rest := ExpiryPassIsRun(env, w', e.state, keys[1..], now, consolidate);
        steps := [st] + rest;
        assert steps[1..] == rest;
      }
    }
  }

  // ---- The stages of a new swap ----

  lemma StageIs(s: State, r: Request, n: nat, consolidate: bool)
    requires n <= CreateLimit(r)
    ensures CreateStages(s, r, n, consolidate)
         == if n == 0 then s else NextStage(CreateStages(s, r, n - 1, consolidate), r, n, consolidate)
  {
    hide SaveHoldInvoice, Write, SetPreimage, SetSwap;
  }
}
