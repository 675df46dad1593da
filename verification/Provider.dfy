/** The swap provider's own state and its operations, as functions on values: the in-memory database, its
    tracked and durable images, the callback tables, and what each operation of the swap manager and the
    Lightning layer does to them. */
module Provider {
  import opened Common
  import opened Invoices
  import opened LockScript

  type Hash = Bytes

  datatype Swap = Swap(
    isReverse: bool, lock: Lock, onchainAmount: int, lightningAmount: int,
    preimage: Option<Bytes>, prepayHash: Option<Hash>,
    fundingTxid: Option<Bytes>, spendingTxid: Option<Bytes>, isRedeemed: bool)

  /** The sections submarine_swaps, hold_invoices and lightning_preimages of the database. */
  datatype Image = Image(swaps: map<Hash, Swap>, invoices: map<Hash, InvoiceRecord>, preimages: map<Hash, Bytes>)

  /** `mem` is the live tree; `tracked` is what the durable text would hold once the pending changes are
      appended; `disk` is what it holds now. In-place changes of invoices reach `mem` only. */
  datatype State = State(
    mem: Image, tracked: Image, disk: Image,
    callbacks: set<Hash>,          // hold invoice callbacks
    sweep: set<Hash>,              // what is left of callback_handler's copy of the callback table
    watching: set<Hash>,           // chain monitor callbacks
    creating: set<Hash>,           // swaps added but not yet registered with the callback tables
    toPay: map<Hash, int>)         // invoices_to_pay

  datatype Outcome = Done | Raised

  // ---- The database ----

  function StoredInvoices(m: map<Hash, InvoiceRecord>): map<Hash, InvoiceRecord>
  {
    map k | k in m :: Stored(m[k])
  }

  /** What dumping the live tree writes. */
  function Dump(im: Image): Image
  {
    im.(invoices := StoredInvoices(im.invoices))
  }

  /** JsonDB.write: consolidate the live tree, or append the pending changes. */
  function Write(s: State, consolidate: bool): State
  {
    if consolidate then s.(tracked := Dump(s.mem), disk := Dump(s.mem)) else s.(disk := s.tracked)
  }

  /** An attribute write or item assignment in the swaps section. */
  function SetSwap(s: State, k: Hash, swap: Swap): State
  {
    s.(mem := s.mem.(swaps := s.mem.swaps[k := swap]), tracked := s.tracked.(swaps := s.tracked.swaps[k := swap]))
  }

  function PopSwap(s: State, k: Hash): State
  {
    s.(mem := s.mem.(swaps := s.mem.swaps - {k}), tracked := s.tracked.(swaps := s.tracked.swaps - {k}))
  }

  /** A method call on the live invoice object. */
  function Touch(s: State, k: Hash, inv: InvoiceRecord): State
  {
    s.(mem := s.mem.(invoices := s.mem.invoices[k := inv]))
  }

  function SetInvoice(s: State, k: Hash, inv: InvoiceRecord): State
  {
    Touch(s, k, inv).(tracked := s.tracked.(invoices := s.tracked.invoices[k := Stored(inv)]))
  }

  function PopInvoice(s: State, k: Hash): State
  {
    s.(mem := s.mem.(invoices := s.mem.invoices - {k}), tracked := s.tracked.(invoices := s.tracked.invoices - {k}))
  }

  function SetPreimage(s: State, k: Hash, p: Bytes): State
  {
    s.(mem := s.mem.(preimages := s.mem.preimages[k := p]),
       tracked := s.tracked.(preimages := s.tracked.preimages[k := p]))
  }

  function PopPreimage(s: State, k: Hash): State
  {
    s.(mem := s.mem.(preimages := s.mem.preimages - {k}), tracked := s.tracked.(preimages := s.tracked.preimages - {k}))
  }

  // ---- CLNLightning ----

  /** update_invoice: pop, set again, write. */
  function UpdateInvoice(s: State, k: Hash, consolidate: bool): State
    requires k in s.mem.invoices
  {
    Write(SetInvoice(s, k, s.mem.invoices[k]), consolidate)
  }

  /** save_hold_invoice */
  function SaveHoldInvoice(s: State, k: Hash, inv: InvoiceRecord, consolidate: bool): State
  {
    Write(SetInvoice(s, k, inv), consolidate)
  }

  /** delete_hold_invoice without the write. */
  function DropHoldInvoice(s: State, k: Hash): State
  {
    PopInvoice(s.(callbacks := s.callbacks - {k}), k)
  }

  /** delete_hold_invoice with the write. */
  function DeleteHoldInvoice(s: State, k: Hash, consolidate: bool): State
  {
    var s' := DropHoldInvoice(s, k);
    if k in s.mem.invoices then Write(s', consolidate) else s'
  }

  /** plugin_htlc_accepted_hook, for an HTLC with payment hash k. */
  function HtlcAccepted(s: State, k: Hash, inc: Incoming, decodeOk: bool, now: int, consolidate: bool): State
  {
    if k !in s.mem.invoices then s
    else
      var (inv, changed) := HandleHtlc(s.mem.invoices[k], inc, decodeOk, now);
      var s' := Touch(s, k, inv);
      if changed then UpdateInvoice(s', k, consolidate) else s'
  }

  datatype Expiry = Expiry(state: State, outcome: Outcome, cancelled: Option<InvoiceRecord>)

  /** check_invoice_expiry. The associated invoice is looked up with `is not None` bound to the name, so finding
      one makes the step raise. */
  function CheckInvoiceExpiry(s: State, k: Hash, now: int, consolidate: bool): Expiry
  {
    if k !in s.mem.invoices then Expiry(s, Done, None)
    else
      var inv := s.mem.invoices[k];
      if inv.createdAt + inv.expiry < now && inv.status !in {FUNDED, SETTLED} then
        var (inv', ok) := CancelAll(inv);
        var s' := Touch(s, k, inv');
        if !ok then Expiry(s', Raised, Some(inv'))
        else if inv.associated.Some? && inv.associated.value in s.mem.invoices then Expiry(s', Raised, Some(inv'))
        else Expiry(DeleteHoldInvoice(s', k, consolidate), Done, Some(inv'))
      else Expiry(s, Done, None)
  }

  // ---- SwapManager ----

  /** _fail_swap. The hold invoice branch compares bytes with hex strings and is never taken. */
  function FailSwap(s: State, k: Hash, swap: Swap, consolidate: bool): (State, Outcome)
  {
    var s' := s.(watching := s.watching - {k}, toPay := s.toPay - {k});
    if swap.fundingTxid.None? || swap.isRedeemed then
      if k in s'.mem.swaps then (Write(PopSwap(s', k), consolidate), Done) else (s', Raised)
    else (Write(s', consolidate), Done)
  }

  /** How the wallet answers when the funding transaction is made and sent. */
  datatype FundingResult = CreateRaises | NoTransaction | SendFails(txid: Bytes) | Sent(txid: Bytes)

  datatype FundingStep = FundingStep(state: State, outcome: Outcome, attempted: bool)

  /** hold_invoice_callback */
  function HoldInvoiceCallback(s: State, k: Hash, f: FundingResult, consolidate: bool): FundingStep
  {
    if k !in s.mem.swaps || s.mem.swaps[k].fundingTxid.Some? then FundingStep(s, Done, false)
    else
      var swap := s.mem.swaps[k];
      match f
      case CreateRaises => FundingStep(s, Raised, false)
      case NoTransaction =>
        var (s', o) := FailSwap(s, k, swap, consolidate);
        FundingStep(s', o, false)
      case SendFails(txid) =>
        var swap' := swap.(fundingTxid := Some(txid));
        var (s', o) := FailSwap(SetSwap(s, k, swap'), k, swap', consolidate);
        FundingStep(s', o, true)
      case Sent(txid) =>
        FundingStep(SetSwap(s, k, swap.(fundingTxid := Some(txid))), Done, true)
  }

  /** The prepay invoice of a funded invoice, if the callback may run now. */
  datatype PrepayStep = PrepayStep(state: State, outcome: Outcome, proceed: bool, settled: Option<InvoiceRecord>)

  /** The part of callback_handler's turn that settles the prepay invoice and makes that durable. */
  function SettlePrepay(s: State, k: Hash, sha256: Bytes -> Bytes, consolidate: bool): PrepayStep
    requires k in s.mem.invoices
  {
    match s.mem.invoices[k].associated
    case None => PrepayStep(s, Done, true, None)
    case Some(q) =>
      if q !in s.mem.invoices then PrepayStep(s, Raised, false, None)
      else if !s.mem.invoices[q].status.FUNDED? then PrepayStep(s, Done, false, None)
      else if q !in s.mem.preimages || sha256(s.mem.preimages[q]) != q then PrepayStep(s, Raised, false, None)
      else
        var (inv, ok) := Settle(s.mem.invoices[q], s.mem.preimages[q], sha256);
        var s' := Touch(s, q, inv);
        if !ok then PrepayStep(s', Raised, false, Some(inv))
        else PrepayStep(UpdateInvoice(s', q, consolidate), Done, true, Some(inv))
  }

  datatype Turn = Turn(state: State, outcome: Outcome, attempted: bool, settled: Option<InvoiceRecord>)

  /** One turn of callback_handler's loop. */
  function CallbackTurn(
    s: State, k: Hash, f: FundingResult, sha256: Bytes -> Bytes, consolidate: bool, consolidateOnFail: bool): Turn
  {
    if k !in s.mem.invoices then
      if k in s.callbacks then Turn(s.(callbacks := s.callbacks - {k}), Done, false, None)
      else Turn(s, Raised, false, None)
    else if !s.mem.invoices[k].status.FUNDED? then Turn(s, Done, false, None)
    else
      var p := SettlePrepay(s, k, sha256, consolidate);
      if !p.proceed then Turn(p.state, p.outcome, false, p.settled)
      else
        var r := HoldInvoiceCallback(p.state, k, f, consolidateOnFail);
        if r.outcome.Raised? then Turn(r.state, Raised, r.attempted, p.settled)
        else Turn(r.state.(callbacks := r.state.callbacks - {k}), Done, r.attempted, p.settled)
  }

  /** _finish_normal_swap: the state, the outcome, and the hold invoice if settling it was tried. */
  function FinishNormalSwap(s: State, k: Hash, sha256: Bytes -> Bytes, consolidate: bool)
    : (State, Outcome, Option<InvoiceRecord>)
    requires k in s.mem.swaps
  {
    var swap := s.mem.swaps[k];
    if swap.preimage.None? || swap.preimage.value == [] || k !in s.mem.invoices then (s, Raised, None)
    else
      var (inv, ok) := Settle(s.mem.invoices[k], swap.preimage.value, sha256);
      var s1 := Touch(s, k, inv);
      if !ok then (s1, Raised, Some(inv))
      else
        var s2 := DropHoldInvoice(s1, k);
        var s3 := if swap.prepayHash.Some? then DropHoldInvoice(s2, swap.prepayHash.value) else s2;
        var s4 := PopPreimage(s3, k);
        (Write(PopSwap(s4.(watching := s4.watching - {k}), k), consolidate), Done, Some(inv))
  }

  /** delete_finished_reverse_swap, called with is_redeemed set. */
  function DeleteFinished(s: State, k: Hash, consolidate: bool): State
  {
    Write(PopSwap(s.(watching := s.watching - {k}, toPay := s.toPay - {k}), k), consolidate)
  }

  // ---- _claim_swap ----

  /** An input of a transaction, as its witness elements. */
  datatype Input = Input(elements: seq<Bytes>)

  /** A transaction that spends a lockup output; height 0 while unconfirmed. */
  datatype SpendTx = SpendTx(txid: Bytes, height: nat, inputs: seq<Input>)

  datatype Txo = Txo(txid: Bytes, value: int, spent: Option<SpendTx>)

  /** What the chain backend reports to one run of _claim_swap. */
  datatype Observation = Observation(
    upToDate: bool, height: int, txos: seq<Txo>, fundingConf: int, claimFee: int, claimTxid: Bytes)

  /** A transaction signed by _create_and_sign_claim_tx: the output it spends, its locktime and witness elements. */
  datatype SignedTx = SignedTx(spends: Txo, locktime: int, revealed: Bytes, amount: int)

  datatype Claim = Claim(state: State, outcome: Outcome, broadcast: Option<SignedTx>, settled: Option<InvoiceRecord>)

  const REDEEM_AFTER_DOUBLE_SPENT_DELAY := 30
  const MIN_LOCKTIME_DELTA := 60
  const DUST_THRESHOLD := 546

  /** The output _claim_swap works on: for a reverse swap the first with enough value, otherwise the first. */
  function FirstUsable(swap: Swap, txos: seq<Txo>): Option<Txo>
  {
    if txos == [] then None
    else if swap.isReverse && txos[0].value < swap.onchainAmount then FirstUsable(swap, txos[1..])
    else Some(txos[0])
  }

  datatype Search = Found(preimage: Bytes) | Missing | IndexError

  /** The loop over the spender's inputs; an input with fewer than two witness elements raises. */
  function FindPreimage(inputs: seq<Input>, k: Hash, sha256: Bytes -> Bytes): Search
  {
    if inputs == [] then Missing
    else if |inputs[0].elements| < 2 then IndexError
    else if sha256(inputs[0].elements[1]) == k then Found(inputs[0].elements[1])
    else FindPreimage(inputs[1..], k, sha256)
  }

  function ClaimSwap(s: State, k: Hash, o: Observation, sha256: Bytes -> Bytes, consolidate: bool): Claim
    requires k in s.mem.swaps
  {
    if !o.upToDate then Claim(s, Done, None, None)
    else
      var swap := s.mem.swaps[k];
      match FirstUsable(swap, o.txos)
      case None =>
        if swap.lock.locktime - o.height <= 0 then
          var (s', r) := FailSwap(s, k, swap, consolidate);
          Claim(s', r, None, None)
        else Claim(s, Done, None, None)
      case Some(txo) => ClaimFunded(s, k, o, txo, sha256, consolidate)
  }

  /** The swap with what the funding output tells about it. */
  function Observed(swap: Swap, txo: Txo): Swap
  {
    swap.(fundingTxid := Some(txo.txid),
          spendingTxid := if txo.spent.Some? then Some(txo.spent.value.txid) else swap.spendingTxid)
  }

  function ClaimFunded(s: State, k: Hash, o: Observation, txo: Txo, sha256: Bytes -> Bytes, consolidate: bool): Claim
    requires k in s.mem.swaps
  {
    var swap := Observed(s.mem.swaps[k], txo);
    var s1 := SetSwap(s, k, swap);
    if txo.spent.Some? && txo.spent.value.height > 0
       && o.height - txo.spent.value.height > REDEEM_AFTER_DOUBLE_SPENT_DELAY then
      Claim(DeleteFinished(SetSwap(s1, k, swap.(isRedeemed := true)), k, consolidate), Done, None, None)
    else if swap.isReverse then ClaimReverse(s1, k, o, txo, sha256)
    else ClaimNormal(s1, k, o, txo, sha256, consolidate)
  }

  /** The branch of _claim_swap for a swap in which the provider pays on chain. */
  function ClaimNormal(s: State, k: Hash, o: Observation, txo: Txo, sha256: Bytes -> Bytes, consolidate: bool): Claim
    requires k in s.mem.swaps
  {
    var swap := s.mem.swaps[k];
    if swap.preimage.None? && txo.spent.Some? then
      match FindPreimage(txo.spent.value.inputs, k, sha256)
      case IndexError => Claim(s, Raised, None, None)
      case Found(p) =>
        var (s', r, inv) := FinishNormalSwap(SetSwap(s, k, swap.(preimage := Some(p))), k, sha256, consolidate);
        Claim(s', r, None, inv)
      case Missing =>
        if txo.spent.value.height >= 2 then
          var swap' := swap.(isRedeemed := true);
          var (s', r) := FailSwap(SetSwap(s, k, swap'), k, swap', consolidate);
          Claim(s', r, None, None)
        else if txo.spent.value.height == 0 then
          Claim(s, Raised, None, None)    // the fee of a network transaction is None
        else RefundIfDue(s, k, o, txo)
    else RefundIfDue(s, k, o, txo)
  }

  function RefundIfDue(s: State, k: Hash, o: Observation, txo: Txo): Claim
    requires k in s.mem.swaps
  {
    var swap := s.mem.swaps[k];
    if swap.lock.locktime - o.height > 0 then Claim(s, Done, None, None)
    else if swap.preimage.Some? && swap.preimage.value != [] then Claim(s, Done, None, None)
    else SignClaim(s, k, o, txo, swap.lock.locktime, [])
  }

  /** The branch for a swap in which the client pays on chain. */
  function ClaimReverse(s: State, k: Hash, o: Observation, txo: Txo, sha256: Bytes -> Bytes): Claim
    requires k in s.mem.swaps
  {
    var swap := s.mem.swaps[k];
    if swap.preimage.Some? then SignClaim(s, k, o, txo, 0, swap.preimage.value)
    else if k in s.mem.preimages then
      if sha256(s.mem.preimages[k]) != k then Claim(s, Raised, None, None)
      else
        var p := s.mem.preimages[k];
        SignClaim(SetSwap(s, k, swap.(preimage := Some(p))), k, o, txo, 0, p)
    else if o.fundingConf <= 0 then Claim(s, Done, None, None)
    else if swap.lock.locktime - o.height <= MIN_LOCKTIME_DELTA then
      Claim(s.(toPay := s.toPay - {k}), Done, None, None)
    else if k !in s.toPay then Claim(s.(toPay := s.toPay[k := 0]), Done, None, None)
    else Claim(s, Done, None, None)
  }

  /** The end of _claim_swap: sign, and broadcast once the funding transaction is confirmed. */
  function SignClaim(s: State, k: Hash, o: Observation, txo: Txo, locktime: int, revealed: Bytes): Claim
    requires k in s.mem.swaps
  {
    if txo.spent.Some? || txo.value - o.claimFee < DUST_THRESHOLD then Claim(s, Done, None, None)
    else
      var tx := SignedTx(txo, locktime, revealed, txo.value - o.claimFee);
      Claim(SetSwap(s, k, s.mem.swaps[k].(spendingTxid := Some(o.claimTxid))), Done,
            if o.fundingConf > 0 then Some(tx) else None, None)
  }

  // ---- Creating swaps ----

  /** The request and everything create_normal_swap draws from its surroundings. */
  datatype Request = Request(
    paymentHash: Hash, lock: Lock, lightningSat: int, onchainSat: int, prepaySat: int,
    prepayHash: Hash, prepayPreimage: Bytes, main: Bolt11, prepay: Bolt11, now: int)

  const INVOICE_EXPIRY := 300

  function NewInvoice(hash: Hash, bolt11: Bolt11, sat: int, now: int): InvoiceRecord
    requires sat > 0
  {
    InvoiceRecord(hash, bolt11, sat * 1000, INVOICE_EXPIRY, [], UNFUNDED, now, None)
  }

  function MainSat(r: Request): int { r.lightningSat - r.prepaySat }

  function NewSwap(r: Request): Swap
  {
    Swap(false, r.lock, r.onchainSat, r.lightningSat, None, Some(r.prepayHash), None, None, false)
  }

  /** How far create_normal_swap gets: an invoice amount of zero or less raises. */
  function CreateLimit(r: Request): nat
  {
    if MainSat(r) <= 0 then 0 else if r.prepaySat <= 0 then 2 else 5
  }

  /** What create_normal_swap saves next. */
  function NextStage(s: State, r: Request, n: nat, consolidate: bool): State
    requires 0 < n <= CreateLimit(r)
  {
    if n == 1 then SaveHoldInvoice(s, r.paymentHash, NewInvoice(r.paymentHash, r.main, MainSat(r), r.now), consolidate)
    else if n == 2 then Write(SetPreimage(s, r.prepayHash, r.prepayPreimage), consolidate)
    else if n == 3 then
      SaveHoldInvoice(s, r.prepayHash, NewInvoice(r.prepayHash, r.prepay, r.prepaySat, r.now), consolidate)
    else if n == 4 then
      SaveHoldInvoice(s, r.paymentHash,
                      NewInvoice(r.paymentHash, r.main, MainSat(r), r.now).(associated := Some(r.prepayHash)),
                      consolidate)
    else SetSwap(s, r.paymentHash, NewSwap(r)).(creating := s.creating + {r.paymentHash})
  }

  /** The first n durable stages of create_normal_swap. */
  function CreateStages(s: State, r: Request, n: nat, consolidate: bool): State
    requires n <= CreateLimit(r)
  {
    if n == 0 then s
    else NextStage(CreateStages(s, r, n - 1, consolidate), r, n, consolidate)
  }

  /** The end of create_normal_swap, after the lockup address is imported. */
  function RegisterSwap(s: State, k: Hash): State
  {
    s.(creating := s.creating - {k}, watching := s.watching + {k}, callbacks := s.callbacks + {k})
  }

  /** create_reverse_swap */
  function CreateReverse(s: State, k: Hash, lock: Lock, onchainSat: int, lightningSat: int, preimage: Bytes): State
  {
    SetSwap(s, k, Swap(true, lock, onchainSat, lightningSat, Some(preimage), None, None, None, false))
      .(watching := s.watching + {k})
  }

  // ---- Crash and restart ----

  /** SwapManager.__init__ keeps a swap unless it is an open normal swap whose invoice is gone. */
  predicate Kept(im: Image, k: Hash)
  {
    k in im.swaps && (im.swaps[k].isReverse || im.swaps[k].isRedeemed || k in im.invoices)
  }

  /** Everything volatile is lost; the database is loaded from its durable form. */
  function Restart(s: State): State
  {
    var im := s.disk;
    var kept := im.(swaps := map k | k in im.swaps && Kept(im, k) :: im.swaps[k]);
    State(kept, kept, s.disk,
          set k | k in im.swaps && !im.swaps[k].isReverse && !im.swaps[k].isRedeemed && k in im.invoices,
          {},
          set k | k in im.swaps && Kept(im, k) && !im.swaps[k].isRedeemed,
          {}, map[])
  }
}
