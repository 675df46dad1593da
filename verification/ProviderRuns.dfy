/** Runs of the provider against a chain, a Lightning node and a crashing process. */
module ProviderRuns {
  import opened Common
  import opened Invoices
  import opened LockScript
  import opened Provider
  import Fees

  /** The hash functions; nothing is known about them. */
  datatype Env = Env(sha256: Bytes -> Bytes, ripemd: Bytes -> Bytes)
  {
    function Hash160(x: Bytes): Bytes { ripemd(sha256(x)) }
  }

  /** What a normal swap was created with. */
  datatype Terms = Terms(request: Request, fees: Fees.Schedule)

  type HtlcId = (Hash, string, int, nat)

  function IdOf(k: Hash, h: HtlcRecord): HtlcId { (k, h.scid, h.channelId, h.amountMsat) }

  /** What the Lightning node reported about an HTLC when it first arrived: the absolute height at which it expires, the
      blocks left, the payment secret, and whether decodepay could read the invoice. */
  datatype Arrival = Arrival(expiry: int, cltvRelative: int, secret: Option<Bytes>, decodeOk: bool)

  /** A refund transaction broadcast for a swap: at which height, the preimage known then, the output it spends as the
      chain backend reported it, and its locktime. */
  datatype Refund = Refund(hash: Hash, height: int, preimage: Option<Bytes>, output: Txo, locktime: int)

  /** What a reverse swap was created with. */
  datatype Reversal = Reversal(lock: Lock, onchainSat: int)

  /** A claim transaction broadcast for a reverse swap: the preimage in its witness, the output it spends as the chain
      backend reported it, and the confirmations of the transaction that made this output. */
  datatype ReverseClaim = ReverseClaim(hash: Hash, preimage: Bytes, output: Txo, fundingConf: int)

  /** The chain, and the history that the claims are about. */
  datatype World = World(
    height: nat,
    terms: map<Hash, Terms>,
    prepayments: map<Hash, Hash>,       // prepay hash -> payment hash
    used: set<Hash>,
    lockups: map<Hash, seq<Txo>>,       // outputs paying to the lockup address of a swap
    fundings: seq<Hash>,                // every attempt to send a funding transaction, in order
    refunds: seq<Refund>,
    reversals: map<Hash, Reversal>,
    claims: seq<ReverseClaim>,
    resolved: set<Hash>,                // payment hashes whose preimage was handed to the Lightning node
    arrivals: map<HtlcId, Arrival>,     // every HTLC that arrived for a hold invoice
    answers: set<(HtlcId, Answer)>)     // what the Lightning node was told about them

  const LOCKTIME_DELTA_REFUND := 70

  datatype Step =
    | Create(r: Request, fees: Fees.Schedule, startHeight: nat, consolidate: bool)
    | CreateInterrupted(r: Request, fees: Fees.Schedule, startHeight: nat, stages: nat, consolidate: bool)
    | Register(k: Hash)
    | CreateRev(k: Hash, lock: Lock, onchainSat: int, lightningSat: int, preimage: Bytes)
    | HtlcStep(k: Hash, inc: Incoming, expiry: int, decodeOk: bool, now: int, consolidate: bool)
    | StartSweep
    | TurnStep(k: Hash, f: FundingResult, consolidate: bool, consolidateOnFail: bool)
    | TurnInterrupted(k: Hash, isSaved: bool, consolidate: bool)
    | ExpiryStep(k: Hash, now: int, consolidate: bool)
    | ClaimStep(k: Hash, o: Observation, consolidate: bool)
    | ClaimInterrupted(k: Hash, o: Observation, consolidate: bool)
    | NewBlock
    | Deposit(k: Hash, txid: Bytes, value: int)
    | SpendLockup(k: Hash, i: nat, tx: SpendTx, wit: seq<Bytes>, ctx: Context)
    | ConfirmSpend(k: Hash, i: nat, height: nat)
    | Crash

  // ---- The chain ----

  function SwapLock(w: World, k: Hash): Lock
    requires k in w.terms
  {
    w.terms[k].request.lock
  }

  /** An input that takes the claim branch of a lock: witness elements [sig, preimage, script]. */
  predicate IsClaimInput(env: Env, lock: Lock, i: Input)
  {
    && |i.elements| == 3 && |i.elements[1]| == 32
    && env.Hash160(i.elements[1]) == lock.hash
    && LockBytes(lock) == Ok(i.elements[2])
  }

  predicate ClaimsLockup(env: Env, lock: Lock, tx: SpendTx)
  {
    exists j :: 0 <= j < |tx.inputs| && IsClaimInput(env, lock, tx.inputs[j])
  }

  /** The refund transaction sign_tx makes: one input whose second element is empty. */
  predicate IsProviderRefund(tx: SpendTx)
  {
    |tx.inputs| == 1 && |tx.inputs[0].elements| == 3 && tx.inputs[0].elements[1] == []
  }

  /** The lockup output of swap k was spent through the hash branch. */
  predicate Claimed(env: Env, w: World, k: Hash)
    requires k in w.terms
  {
    k in w.lockups && exists i :: 0 <= i < |w.lockups[k]| && w.lockups[k][i].spent.Some?
                                  && ClaimsLockup(env, SwapLock(w, k), w.lockups[k][i].spent.value)
  }

  // ---- Steps ----

  predicate GoodRequest(env: Env, w: World, r: Request, fees: Fees.Schedule, startHeight: nat)
  {
    && r.paymentHash !in w.used && r.prepayHash !in w.used && r.paymentHash != r.prepayHash
    && r.lock.Valid() && r.lock.hash == env.ripemd(r.paymentHash)
    && r.lock.locktime == startHeight + LOCKTIME_DELTA_REFUND && startHeight <= w.height
    && fees.den > 0 && 0 <= fees.num < 100 * fees.den
    && Fees.GetRecvAmount(fees, Some(r.lightningSat), true) == Some(r.onchainSat)
    && env.sha256(r.prepayPreimage) == r.prepayHash
  }

  /** The backend reports the chain as it is, perhaps late, and perhaps not all of it. */
  predicate Observable(w: World, s: State, k: Hash, o: Observation)
  {
    k in s.watching && k in s.mem.swaps && o.height <= w.height
    && (k in w.lockups ==> forall i :: 0 <= i < |o.txos| ==> o.txos[i] in w.lockups[k])
    && (k !in w.lockups ==> o.txos == [])
  }

  ghost predicate Enabled(env: Env, w: World, s: State, st: Step)
  {
    match st
    case Create(r, fees, h, _) => GoodRequest(env, w, r, fees, h)
    case CreateInterrupted(r, fees, h, n, _) => GoodRequest(env, w, r, fees, h) && n <= CreateLimit(r)
    case Register(k) => k in s.creating
    case CreateRev(k, lock, _, _, preimage) =>
      k !in w.used && lock.Valid() && lock.hash == env.ripemd(k) && |preimage| == 32 && env.sha256(preimage) == k
    case HtlcStep(_, inc, expiry, _, _, _) => inc.cltvRelative == expiry - w.height
    case StartSweep => true
    case TurnStep(k, _, _, _) => k in s.sweep
    case TurnInterrupted(k, _, _) => k in s.sweep && k in s.mem.invoices && s.mem.invoices[k].status.FUNDED?
    case ExpiryStep(_, _, _) => true
    case ClaimStep(k, o, _) => Observable(w, s, k, o)
    case ClaimInterrupted(k, o, _) => Observable(w, s, k, o)
    case NewBlock => true
    case Deposit(k, _, _) => k in w.used
    case SpendLockup(k, i, tx, wit, ctx) =>
      && k in w.terms && k in w.lockups && i < |w.lockups[k]| && w.lockups[k][i].spent.None?
      && (forall x :: ctx.hash160(x) == env.Hash160(x))
      && LockBytes(SwapLock(w, k)).Ok?
      && var script := LockBytes(SwapLock(w, k)).value;
         && Spends(script, wit, ctx)
         && Input(wit + [script]) in tx.inputs
         // the refund key only ever signed the provider's own refund transactions
         && (RefundSpend(SwapLock(w, k), wit, ctx) ==>
               IsProviderRefund(tx) && exists r :: r in w.refunds && r.hash == k)
    case ConfirmSpend(k, i, height) =>
      k in w.lockups && i < |w.lockups[k]| && w.lockups[k][i].spent.Some? && 0 < height <= w.height
    case Crash => true
  }

  function AfterCreate(w: World, r: Request, fees: Fees.Schedule): World
  {
    w.(terms := w.terms[r.paymentHash := Terms(r, fees)],
       prepayments := w.prepayments[r.prepayHash := r.paymentHash],
       used := w.used + {r.paymentHash, r.prepayHash})
  }

  /** Whether an HTLC was answered with the preimage between two states of an invoice. */
  predicate Reveals(before: InvoiceRecord, after: InvoiceRecord)
  {
    |before.htlcs| == |after.htlcs| &&
    exists i :: 0 <= i < |before.htlcs| && before.htlcs[i].state.Accepted? && after.htlcs[i].state.Settled?
  }

  /** The answers that the HTLCs of an invoice were given. */
  function AnswersOf(k: Hash, hs: seq<HtlcRecord>): set<(HtlcId, Answer)>
  {
    set i | 0 <= i < |hs| && hs[i].callback.Answered? :: (IdOf(k, hs[i]), hs[i].callback.answer)
  }

  /** The world once the HTLCs of the invoice at k are as `after` says, if it does. */
  function Told(w: World, k: Hash, after: Option<InvoiceRecord>): World
  {
    if after.Some? then w.(answers := w.answers + AnswersOf(k, after.value.htlcs)) else w
  }

  function AfterSettle(w: World, s: State, k: Hash, settled: Option<InvoiceRecord>): World
  {
    var w1 := Told(w, k, settled);
    if settled.Some? && k in s.mem.invoices && Reveals(s.mem.invoices[k], settled.value)
    then w1.(resolved := w1.resolved + {k}) else w1
  }

  /** The arrival of an HTLC for k. */
  function Arrived(w: World, k: Hash, inc: Incoming, expiry: int, decodeOk: bool): World
  {
    w.(arrivals := w.arrivals[(k, inc.scid, inc.channelId, inc.amountMsat) :=
                     Arrival(expiry, inc.cltvRelative, inc.secret, decodeOk)])
  }

  /** The live invoice at k. */
  function LiveAt(s: State, k: Hash): Option<InvoiceRecord>
  {
    if k in s.mem.invoices then Some(s.mem.invoices[k]) else None
  }

  /** The payment hash whose invoice a turn for k settles. */
  function PrepayOf(s: State, k: Hash): Hash
  {
    if k in s.mem.invoices && s.mem.invoices[k].associated.Some? then s.mem.invoices[k].associated.value else k
  }

  /** What the Lightning node and the chain saw of a run of _claim_swap; it writes to the disk last. */
  function AfterClaim(env: Env, w: World, s: State, k: Hash, o: Observation, consolidate: bool): World
    requires k in s.mem.swaps
  {
    var r := ClaimSwap(s, k, o, env.sha256, consolidate);
    var w1 := AfterSettle(w, s, k, r.settled);
    if r.broadcast.None? then w1
    else if s.mem.swaps[k].isReverse then
      w1.(claims := w1.claims + [ReverseClaim(k, r.broadcast.value.revealed, r.broadcast.value.spends, o.fundingConf)])
    else
      var tx := r.broadcast.value;
      w1.(refunds := w1.refunds + [Refund(k, o.height, s.mem.swaps[k].preimage, tx.spends, tx.locktime)])
  }

  function Next(env: Env, w: World, s: State, st: Step): (World, State)
    requires Enabled(env, w, s, st)
  {
    match st
    case Create(r, fees, _, c) => (AfterCreate(w, r, fees), CreateStages(s, r, CreateLimit(r), c))
    case CreateInterrupted(r, fees, _, n, c) => (AfterCreate(w, r, fees), Restart(CreateStages(s, r, n, c)))
    case Register(k) => (w, RegisterSwap(s, k))
    case CreateRev(k, lock, onchain, lightning, p) =>
      (w.(used := w.used + {k}, reversals := w.reversals[k := Reversal(lock, onchain)]),
       CreateReverse(s, k, lock, onchain, lightning, p))
    case HtlcStep(k, inc, expiry, decodeOk, now, c) =>
      var isNew := k in s.mem.invoices && FindHtlc(s.mem.invoices[k].htlcs, FromCln(inc, now)).None?;
      var s' := HtlcAccepted(s, k, inc, decodeOk, now, c);
      (Told(if isNew then Arrived(w, k, inc, expiry, decodeOk) else w, k, LiveAt(s', k)), s')
    case StartSweep => (w, s.(sweep := s.callbacks))
    case TurnStep(k, f, c1, c2) =>
      var t := CallbackTurn(s, k, f, env.sha256, c1, c2);
      var w1 := AfterSettle(w, s, PrepayOf(s, k), t.settled);
      (if t.attempted then w1.(fundings := w1.fundings + [k]) else w1,
       t.state.(sweep := if t.outcome.Raised? then {} else t.state.sweep - {k}))
    case TurnInterrupted(k, isSaved, c) =>
      var p := SettlePrepay(s, k, env.sha256, c);
      (AfterSettle(w, s, PrepayOf(s, k), p.settled), Restart(if isSaved then p.state else s))
    case ExpiryStep(k, now, c) =>
      var e := CheckInvoiceExpiry(s, k, now, c);
      (Told(w, k, e.cancelled), e.state)
    case ClaimStep(k, o, c) => (AfterClaim(env, w, s, k, o, c), ClaimSwap(s, k, o, env.sha256, c).state)
    case ClaimInterrupted(k, o, c) => (AfterClaim(env, w, s, k, o, c), Restart(s))
    case NewBlock => (w.(height := w.height + 1), s)
    case Deposit(k, txid, value) =>
      (w.(lockups := w.lockups[k := (if k in w.lockups then w.lockups[k] else []) + [Txo(txid, value, None)]]), s)
    case SpendLockup(k, i, tx, _, _) =>
      (w.(lockups := w.lockups[k := w.lockups[k][i := w.lockups[k][i].(spent := Some(tx))]]), s)
    case ConfirmSpend(k, i, height) =>
      var tx := w.lockups[k][i].spent.value;
      (w.(lockups := w.lockups[k := w.lockups[k][i := w.lockups[k][i].(spent := Some(tx.(height := height)))]]), s)
    case Crash => (w, Restart(s))
  }

  const EMPTY: Image := Image(map[], map[], map[])

  /** A provider with an empty database. */
  const INITIAL: State := State(EMPTY, EMPTY, EMPTY, {}, {}, {}, {}, map[])

  function InitialWorld(height: nat): World
  {
    World(height, map[], map[], {}, map[], [], [], map[], [], {}, map[], {})
  }

  /** Every step of a run is possible where it is taken. */
  ghost predicate Possible(env: Env, w: World, s: State, steps: seq<Step>)
    decreases |steps|
  {
    steps == [] ||
    (Enabled(env, w, s, steps[0]) &&
     var (w', s') := Next(env, w, s, steps[0]);
     Possible(env, w', s', steps[1..]))
  }

  ghost function RunOf(env: Env, w: World, s: State, steps: seq<Step>): (World, State)
    requires Possible(env, w, s, steps)
    decreases |steps|
  {
    if steps == [] then (w, s)
    else var (w', s') := Next(env, w, s, steps[0]); RunOf(env, w', s', steps[1..])
  }
}
