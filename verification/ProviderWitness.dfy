/** A run in which a swap is created, paid for, funded and claimed, and its hold invoice is nevertheless never settled:
    one HTLC was not replayed yet when the claim was seen. */
module ProviderWitness {
  import opened Common
  import opened Invoices
  import opened Wire
  import opened LockScript
  import opened Provider
  import opened ProviderRuns
  import opened ProviderInvariant
  import opened ProviderSafety
  import opened ProviderSettlement
  import opened ProviderMoves
  import opened ProviderHtlcs
  import opened ProviderStuck

  // ---- Longer runs ----

  lemma {:induction false} RunSnoc(env: Env, w: World, s: State, steps: seq<Step>, st: Step)
    requires Possible(env, w, s, steps) && Enabled(env, RunOf(env, w, s, steps).0, RunOf(env, w, s, steps).1, st)
    ensures Possible(env, w, s, steps + [st])
    ensures RunOf(env, w, s, steps + [st])
         == Next(env, RunOf(env, w, s, steps).0, RunOf(env, w, s, steps).1, st)
    decreases |steps|
  {
    hide Next, Enabled;
    if steps == [] {
      assert steps + [st] == [st];
      assert [st][1..] == [];
    } else {
      var (w', s') := Next(env, w, s, steps[0]);
      assert (steps + [st])[1..] == steps[1..] + [st];
      RunSnoc(env, w', s', steps[1..], st);
    }
  }

  lemma StepReaches(env: Env, w: World, s: State, st: Step)
    requires Reachable(env, w, s) && Enabled(env, w, s, st)
    ensures Reachable(env, Next(env, w, s, st).0, Next(env, w, s, st).1)
  {
    hide Next, Enabled, Possible, RunOf;
    var height: nat, steps: seq<Step> :| Reaches(env, height, steps, w, s);
    RunSnoc(env, InitialWorld(height), INITIAL, steps, st);
    assert Reaches(env, height, steps + [st], Next(env, w, s, st).0, Next(env, w, s, st).1);
  }

  // ---- The swap ----

  function Filled(n: nat, b: byte): (r: Bytes)
    ensures |r| == n && forall i :: 0 <= i < n ==> r[i] == b
  {
    seq(n, _ => b)
  }

  const MAIN: Hash := Filled(32, 0)
  const PREPAY: Hash := Filled(32, 1)
  const PREIMAGE: Bytes := Filled(32, 2)
  const PREPAY_PREIMAGE: Bytes := Filled(32, 3)
  const LOCK_HASH: Bytes := Filled(20, 0)
  const SCRIPT_LOCK: Lock := Lock(LOCK_HASH, Filled(33, 2), 70, Filled(33, 3))
  const FEES: Fees.Schedule := Fees.Schedule(0, 1, 1000, 1000, 0, 1_000_000)
  const MAIN_BOLT11: Bolt11 := Bolt11(18, [4])
  const PREPAY_BOLT11: Bolt11 := Bolt11(18, [5])
  const REQUEST: Request :=
    Request(MAIN, SCRIPT_LOCK, 100_000, 99_000, 2_000, PREPAY, PREPAY_PREIMAGE, MAIN_BOLT11, PREPAY_BOLT11, 0)

  function Sha256(x: Bytes): Bytes { if x == PREIMAGE then MAIN else PREPAY }

  function Ripemd160(x: Bytes): Bytes { if x == MAIN then LOCK_HASH else [] }

  function TheEnv(): Env { Env(Sha256, Ripemd160) }

  lemma Hashes()
    ensures MAIN[0] == 0 && PREPAY[0] == 1 && PREIMAGE[0] == 2 && PREPAY_PREIMAGE[0] == 3
    ensures MAIN != PREPAY && PREIMAGE != PREPAY_PREIMAGE && PREIMAGE != []
    ensures TheEnv().sha256(PREIMAGE) == MAIN && TheEnv().sha256(PREPAY_PREIMAGE) == PREPAY
    ensures TheEnv().ripemd(MAIN) == LOCK_HASH
  {
  }

  function Arriving(scid: string, amountMsat: nat, secret: Bytes): Incoming
  {
    Incoming(scid, 0, amountMsat, 144, Some(secret))
  }

  const FIRST: Incoming := Arriving("1", 50_000_000, [4])
  const SECOND: Incoming := Arriving("2", 48_000_000, [4])
  const FOR_PREPAY: Incoming := Arriving("3", 2_000_000, [5])
  const LATE: Incoming := Arriving("4", 1, [4])

  function Held(inc: Incoming, state: HtlcState, callback: Callback): HtlcRecord
  {
    HtlcRecord(state, inc.scid, 0, inc.amountMsat, 0, callback)
  }

  function MainInvoice(htlcs: seq<HtlcRecord>, status: FundingStatus): InvoiceRecord
  {
    InvoiceRecord(MAIN, MAIN_BOLT11, 98_000_000, 300, htlcs, status, 0, Some(PREPAY))
  }

  function PrepayInvoice(htlcs: seq<HtlcRecord>, status: FundingStatus): InvoiceRecord
  {
    InvoiceRecord(PREPAY, PREPAY_BOLT11, 2_000_000, 300, htlcs, status, 0, None)
  }

  function LiveImage(main: InvoiceRecord, prepay: InvoiceRecord, swap: Swap): Image
  {
    Image(map[MAIN := swap], map[MAIN := main, PREPAY := prepay], map[PREPAY := PREPAY_PREIMAGE])
  }

  function Saved(im: Image, callbacks: set<Hash>, sweep: set<Hash>): State
  {
    State(im, Dump(im), Dump(im), callbacks, sweep, {MAIN}, {}, map[])
  }

  predicate Knows(w: World, lockups: map<Hash, seq<Txo>>, fundings: seq<Hash>)
  {
    && w.height == 0 && w.terms == map[MAIN := Terms(REQUEST, FEES)] && MAIN in w.used
    && w.lockups == lockups && w.fundings == fundings
  }

  // ---- Creating and paying ----

  const FRESH_SWAP: Swap := Swap(false, SCRIPT_LOCK, 99_000, 100_000, None, Some(PREPAY), None, None, false)

  function Requested(creating: set<Hash>, registered: set<Hash>): State
  {
    var im := LiveImage(MainInvoice([], UNFUNDED), PrepayInvoice([], UNFUNDED), FRESH_SWAP);
    State(im, im, im.(swaps := map[]), registered, {}, registered, creating, map[])
  }

  /** The state after everything live was written, in a provider with these tables. */
  function Written(im: Image, s: State): State
  {
    s.(mem := im, tracked := Dump(im), disk := Dump(im))
  }

  function WithInvoice(im: Image, h: Hash, inv: InvoiceRecord): Image
  {
    im.(invoices := im.invoices[h := inv])
  }

  predicate NoHtlcs(im: Image)
  {
    forall h :: h in im.invoices ==> im.invoices[h].htlcs == []
  }

  lemma EmptyInvoicesDump(im: Image)
    requires NoHtlcs(im)
    ensures Dump(im) == im
  {
    assert StoredHtlcs([]) == [];
    forall h | h in im.invoices ensures Stored(im.invoices[h]) == im.invoices[h] {
    }
    assert StoredInvoices(im.invoices) == im.invoices;
  }

  /** A provider that is creating its first swap and has this much of it saved. */
  function Creating(im: Image): State { State(im, im, im, {}, {}, {}, {}, map[]) }

  lemma EmptyInvoiceSaved(im: Image, h: Hash, inv: InvoiceRecord)
    requires NoHtlcs(im) && inv.htlcs == []
    ensures NoHtlcs(WithInvoice(im, h, inv))
    ensures SaveHoldInvoice(Creating(im), h, inv, true) == Creating(WithInvoice(im, h, inv))
  {
    hide Dump;
    EmptyInvoicesDump(WithInvoice(im, h, inv));
  }

  lemma StagesOfCreate()
    ensures CreateLimit(REQUEST) == 5
    ensures CreateStages(INITIAL, REQUEST, 5, true) == Requested({MAIN}, {})
  {
    hide SaveHoldInvoice, Dump, Requested;
    var main, prepay := NewInvoice(MAIN, MAIN_BOLT11, 98_000, 0), PrepayInvoice([], UNFUNDED);
    var im1 := WithInvoice(EMPTY, MAIN, main);
    var im2 := im1.(preimages := map[PREPAY := PREPAY_PREIMAGE]);
    var im3 := WithInvoice(im2, PREPAY, prepay);
    var im4 := WithInvoice(im3, MAIN, MainInvoice([], UNFUNDED));
    EmptyInvoiceSaved(EMPTY, MAIN, main);
    assert CreateStages(INITIAL, REQUEST, 0, true) == Creating(EMPTY);
    assert CreateStages(INITIAL, REQUEST, 1, true) == Creating(im1);
    PreimageSaved(im1);
    assert CreateStages(INITIAL, REQUEST, 2, true) == Creating(im2);
    EmptyInvoiceSaved(im2, PREPAY, prepay);
    assert CreateStages(INITIAL, REQUEST, 3, true) == Creating(im3);
    EmptyInvoiceSaved(im3, MAIN, MainInvoice([], UNFUNDED));
    assert CreateStages(INITIAL, REQUEST, 4, true) == Creating(im4);
    LastStage(im4);
  }

  lemma PreimageSaved(im: Image)
    requires NoHtlcs(im) && im.preimages == map[]
    ensures var im' := im.(preimages := map[PREPAY := PREPAY_PREIMAGE]);
            NoHtlcs(im') && Write(SetPreimage(Creating(im), PREPAY, PREPAY_PREIMAGE), true) == Creating(im')
  {
    hide Dump;
    var im' := im.(preimages := map[PREPAY := PREPAY_PREIMAGE]);
    assert im.preimages[PREPAY := PREPAY_PREIMAGE] == im'.preimages;
    EmptyInvoicesDump(im');
  }

  lemma LastStage(im: Image)
    requires CreateLimit(REQUEST) == 5 && CreateStages(INITIAL, REQUEST, 4, true) == Creating(im)
    requires im == WithInvoice(WithInvoice(WithInvoice(EMPTY, MAIN, NewInvoice(MAIN, MAIN_BOLT11, 98_000, 0))
                                             .(preimages := map[PREPAY := PREPAY_PREIMAGE]),
                                           PREPAY, PrepayInvoice([], UNFUNDED)),
                               MAIN, MainInvoice([], UNFUNDED))
    ensures CreateStages(INITIAL, REQUEST, 5, true) == Requested({MAIN}, {})
  {
    Hashes();
    assert im.invoices == map[MAIN := MainInvoice([], UNFUNDED), PREPAY := PrepayInvoice([], UNFUNDED)];
    assert im == Image(map[], map[MAIN := MainInvoice([], UNFUNDED), PREPAY := PrepayInvoice([], UNFUNDED)],
                       map[PREPAY := PREPAY_PREIMAGE]);
  }

  lemma LockIsValid()
    ensures SCRIPT_LOCK.Valid()
  {
    Pow256Values();
    MagnitudeLength(70, 1);
  }

  lemma Quote()
    ensures Fees.GetRecvAmount(FEES, Some(100_000), true) == Some(99_000)
  {
  }

  lemma RequestIsGood()
    ensures GoodRequest(TheEnv(), InitialWorld(0), REQUEST, FEES, 0)
  {
    hide Fees.GetRecvAmount, Lock.Valid, Sha256, Ripemd160;
    Hashes();
    LockIsValid();
    Quote();
  }

  lemma CreateStep(env: Env, w: World, fees: Fees.Schedule)
    requires GoodRequest(env, w, REQUEST, fees, 0)
    ensures Enabled(env, w, INITIAL, Create(REQUEST, fees, 0, true))
    ensures Next(env, w, INITIAL, Create(REQUEST, fees, 0, true))
         == (AfterCreate(w, REQUEST, fees), CreateStages(INITIAL, REQUEST, CreateLimit(REQUEST), true))
  {
    hide GoodRequest, CreateStages, CreateLimit;
  }

  lemma RegisterStep(env: Env, w: World)
    ensures Enabled(env, w, Requested({MAIN}, {}), Register(MAIN))
    ensures Next(env, w, Requested({MAIN}, {}), Register(MAIN)) == (w, Requested({}, {MAIN}))
  {
    var none: set<Hash> := {};
    assert {MAIN} - {MAIN} == none && none + {MAIN} == {MAIN};
  }

  lemma Created() returns (w: World)
    ensures Reachable(TheEnv(), w, Requested({}, {MAIN})) && Knows(w, map[], [])
  {
    hide Possible, RunOf, CreateStages, GoodRequest, Enabled, Next, Reachable, CreateLimit, Requested, LiveImage;
    var env, w0 := TheEnv(), InitialWorld(0);
    InitialReaches(env);
    RequestIsGood();
    StagesOfCreate();
    CreateStep(env, w0, FEES);
    StepReaches(env, w0, INITIAL, Create(REQUEST, FEES, 0, true));
    w := AfterCreate(w0, REQUEST, FEES);
    RegisterStep(env, w);
    StepReaches(env, w, Requested({MAIN}, {}), Register(MAIN));
  }

  lemma InitialReaches(env: Env)
    ensures Reachable(env, InitialWorld(0), INITIAL)
  {
    assert Reaches(env, 0, [], InitialWorld(0), INITIAL);
  }

  /** A new HTLC arrives at height 0, and is saved. */
  lemma Arrives(w: World, s: State, h: Hash, inc: Incoming, lockups: map<Hash, seq<Txo>>, fundings: seq<Hash>)
    returns (w': World)
    requires Reachable(TheEnv(), w, s) && Knows(w, lockups, fundings) && h in s.mem.invoices
    requires inc.cltvRelative == 144 && HandleHtlc(s.mem.invoices[h], inc, true, 0).1
    ensures Knows(w', lockups, fundings)
    ensures Reachable(TheEnv(), w', Written(WithInvoice(s.mem, h, HandleHtlc(s.mem.invoices[h], inc, true, 0).0), s))
  {
    hide Possible, RunOf, Reachable, HandleHtlc, TheEnv, FindHtlc, Dump;
    var step := HtlcStep(h, inc, 144, true, 0, true);
    StepReaches(TheEnv(), w, s, step);
    w' := Next(TheEnv(), w, s, step).0;
    var inv := HandleHtlc(s.mem.invoices[h], inc, true, 0).0;
    assert s.mem.invoices[h := inv][h := inv] == s.mem.invoices[h := inv];
  }

  lemma SumOfTwo(a: HtlcRecord, b: HtlcRecord, state: HtlcState)
    ensures StateMsat([a], state) == if a.state == state then a.amountMsat else 0
    ensures StateMsat([a, b], state)
         == (if a.state == state then a.amountMsat else 0) + (if b.state == state then b.amountMsat else 0)
  {
    assert [a][1..] == [] && [b][1..] == [] && [a, b][1..] == [b];
    assert StateMsat([b], state) == if b.state == state then b.amountMsat else 0;
  }

  /** The HTLCs of the run are told apart, and are accepted in turn. */
  lemma PaymentsAreAccepted()
    ensures HandleHtlc(MainInvoice([], UNFUNDED), FIRST, true, 0) ==
            (MainInvoice([Held(FIRST, Accepted, Pending)], UNFUNDED), true)
    ensures HandleHtlc(MainInvoice([Held(FIRST, Accepted, Pending)], UNFUNDED), SECOND, true, 0)
         == (MainInvoice([Held(FIRST, Accepted, Pending), Held(SECOND, Accepted, Pending)], FUNDED), true)
    ensures HandleHtlc(PrepayInvoice([], UNFUNDED), FOR_PREPAY, true, 0)
         == (PrepayInvoice([Held(FOR_PREPAY, Accepted, Pending)], FUNDED), true)
  {
    var a, b, c := Held(FIRST, Accepted, Pending), Held(SECOND, Accepted, Pending), Held(FOR_PREPAY, Accepted, Pending);
    assert "1" != "2";
    SumOfTwo(a, b, Accepted);
    SumOfTwo(a, b, Settled);
    SumOfTwo(c, c, Accepted);
    SumOfTwo(c, c, Settled);
    assert [] + [a] == [a] && [a] + [b] == [a, b] && [] + [c] == [c];
  }

  function Paid(): Image
  {
    LiveImage(MainInvoice([Held(FIRST, Accepted, Pending), Held(SECOND, Accepted, Pending)], FUNDED),
              PrepayInvoice([Held(FOR_PREPAY, Accepted, Pending)], FUNDED), FRESH_SWAP)
  }

  lemma PaidFor() returns (w: World)
    ensures Reachable(TheEnv(), w, Saved(Paid(), {MAIN}, {})) && Knows(w, map[], [])
  {
    hide Reachable, HandleHtlc, Knows, Held, TheEnv, MainInvoice, PrepayInvoice, Dump;
    Hashes();
    PaymentsAreAccepted();
    var w0 := Created();
    var s0 := Requested({}, {MAIN});
    var w1 := Arrives(w0, s0, MAIN, FIRST, map[], []);
    var main1 := MainInvoice([Held(FIRST, Accepted, Pending)], UNFUNDED);
    var s1 := Written(WithInvoice(s0.mem, MAIN, main1), s0);
    var w2 := Arrives(w1, s1, MAIN, SECOND, map[], []);
    var main2 := MainInvoice([Held(FIRST, Accepted, Pending), Held(SECOND, Accepted, Pending)], FUNDED);
    var s2 := Written(WithInvoice(s1.mem, MAIN, main2), s1);
    w := Arrives(w2, s2, PREPAY, FOR_PREPAY, map[], []);
    assert WithInvoice(s2.mem, PREPAY, PrepayInvoice([Held(FOR_PREPAY, Accepted, Pending)], FUNDED)) == Paid();
  }

  // ---- Funding, and a crash ----

  const FUNDING_TXID: Bytes := [6]
  const FUNDED_SWAP: Swap := FRESH_SWAP.(fundingTxid := Some(FUNDING_TXID))

  const LOCKUP: Txo := Txo(FUNDING_TXID, 99_000, None)

  function PaidMain(): InvoiceRecord
  {
    MainInvoice([Held(FIRST, Accepted, Pending), Held(SECOND, Accepted, Pending)], FUNDED)
  }

  function PrepayAt(state: HtlcState, callback: Callback, status: FundingStatus): InvoiceRecord
  {
    PrepayInvoice([Held(FOR_PREPAY, state, callback)], status)
  }

  function RedeemedPrepay(): InvoiceRecord
  {
    PrepayAt(Settled, Answered(ResolveWith(PREPAY_PREIMAGE)), SETTLED)
  }

  lemma PrepayIsSettled()
    ensures Settle(PrepayAt(Accepted, Pending, FUNDED), PREPAY_PREIMAGE, Sha256) == (RedeemedPrepay(), true)
  {
    Hashes();
    var c := Held(FOR_PREPAY, Accepted, Pending);
    SumOfTwo(c, c, Accepted);
    SumOfTwo(c, c, Settled);
    FirstStuckIsEnd([c]);
    assert ResolveAll([c], ResolveWith(PREPAY_PREIMAGE)) == RedeemedPrepay().htlcs;
  }

  /** The live tree once the funding transaction was sent, and what is on disk by then. */
  function Funded(swap: Swap): Image
  {
    LiveImage(PaidMain(), RedeemedPrepay(), swap)
  }

  function Sending(): State
  {
    var im := Funded(FUNDED_SWAP);
    State(im, Dump(im), Dump(Funded(FRESH_SWAP)), {}, {}, {MAIN}, {}, map[])
  }

  lemma FundingTurn()
    ensures CallbackTurn(Saved(Paid(), {MAIN}, {MAIN}), MAIN, Sent(FUNDING_TXID), Sha256, true, true)
         == Turn(Sending().(sweep := {MAIN}), Done, true, Some(RedeemedPrepay()))
  {
    hide Settle, Sha256, Held;
    Hashes();
    PrepayIsSettled();
    var s := Saved(Paid(), {MAIN}, {MAIN});
    var im := Funded(FRESH_SWAP);
    assert Paid().invoices[PREPAY := RedeemedPrepay()] == im.invoices;
    var p := SettlePrepay(s, MAIN, Sha256, true);
    assert p.state == Saved(im, {MAIN}, {MAIN});
    var swaps := map[MAIN := FRESH_SWAP];
    assert swaps[MAIN := FUNDED_SWAP] == map[MAIN := FUNDED_SWAP];
    assert SetSwap(p.state, MAIN, FUNDED_SWAP) == Sending().(callbacks := {MAIN}, sweep := {MAIN});
    var none: set<Hash> := {};
    assert {MAIN} - {MAIN} == none;
  }

  lemma FundingIsSent() returns (w: World, s: State, st: Step, w': World, s': State)
    ensures Reachable(TheEnv(), w, s) && Enabled(TheEnv(), w, s, st) && st.TurnStep?
    ensures CallbackTurn(s, st.k, st.f, Sha256, st.consolidate, st.consolidateOnFail).attempted
    ensures Next(TheEnv(), w, s, st) == (w', s')
    ensures Reachable(TheEnv(), w', s') && s' == Sending() && Knows(w', map[], [MAIN])
  {
    hide Reachable, CallbackTurn, Paid, ProviderRuns.Reveals;
    w := PaidFor();
    var s0 := Saved(Paid(), {MAIN}, {});
    StepReaches(TheEnv(), w, s0, StartSweep);
    s := Saved(Paid(), {MAIN}, {MAIN});
    FundingTurn();
    st := TurnStep(MAIN, Sent(FUNDING_TXID), true, true);
    StepReaches(TheEnv(), w, s, st);
    w', s' := Next(TheEnv(), w, s, st).0, Next(TheEnv(), w, s, st).1;
    var none: set<Hash> := {};
    assert {MAIN} - {MAIN} == none;
  }

  /** The lockup output is there. */
  lemma FundedLockup() returns (w: World)
    ensures Reachable(TheEnv(), w, Sending()) && Knows(w, map[MAIN := [LOCKUP]], [MAIN])
  {
    hide Reachable, Sending;
    var _, _, _, w0, s0 := FundingIsSent();
    var deposit := Deposit(MAIN, FUNDING_TXID, 99_000);
    StepReaches(TheEnv(), w0, s0, deposit);
    w := Next(TheEnv(), w0, s0, deposit).0;
    assert [] + [LOCKUP] == [LOCKUP];
  }

  /** The main invoice after the restart, with these requests of its two HTLCs. */
  function MainAt(first: HtlcRecord, second: Callback): InvoiceRecord
  {
    MainInvoice([first, Held(SECOND, Accepted, second)], FUNDED)
  }

  /** The prepay invoice after the restart. */
  function StoredPrepay(): InvoiceRecord { PrepayAt(Settled, Detached, SETTLED) }

  function OnDisk(swap: Swap): Image
  {
    LiveImage(MainAt(Held(FIRST, Accepted, Detached), Detached), StoredPrepay(), swap)
  }

  /** After the crash, with this main invoice and swap in the live tree. */
  function Restarted(main: InvoiceRecord, live: Swap, tracked: Swap): State
  {
    State(LiveImage(main, StoredPrepay(), live), OnDisk(tracked), OnDisk(FRESH_SWAP), {MAIN}, {}, {MAIN}, {}, map[])
  }

  lemma DumpOfFunded()
    ensures Dump(Funded(FRESH_SWAP)) == OnDisk(FRESH_SWAP)
  {
    Hashes();
    assert Stored(PaidMain()) == MainAt(Held(FIRST, Accepted, Detached), Detached);
    assert Stored(RedeemedPrepay()) == StoredPrepay();
    assert StoredInvoices(map[MAIN := PaidMain(), PREPAY := RedeemedPrepay()])
        == map[MAIN := Stored(PaidMain()), PREPAY := Stored(RedeemedPrepay())];
  }

  lemma RestartOfSending()
    ensures Restart(Sending()) == Restarted(MainAt(Held(FIRST, Accepted, Detached), Detached), FRESH_SWAP, FRESH_SWAP)
  {
    hide Dump;
    Hashes();
    DumpOfFunded();
    var im := OnDisk(FRESH_SWAP);
    assert (map k | k in im.swaps && Kept(im, k) :: im.swaps[k]) == im.swaps;
    assert (set k | k in im.swaps && !im.swaps[k].isReverse && !im.swaps[k].isRedeemed && k in im.invoices) == {MAIN};
    assert (set k | k in im.swaps && Kept(im, k) && !im.swaps[k].isRedeemed) == {MAIN};
  }

  /** A crash after the lockup output is there; then only the first HTLC is replayed. */
  lemma HalfReplayed() returns (w: World)
    ensures Reachable(TheEnv(), w, Restarted(MainAt(Held(FIRST, Accepted, Pending), Detached), FRESH_SWAP, FRESH_SWAP))
    ensures Knows(w, map[MAIN := [LOCKUP]], [MAIN])
  {
    hide Reachable, Restart, Sending, Restarted, HtlcAccepted;
    var env, s0 := TheEnv(), Sending();
    var w1 := FundedLockup();
    StepReaches(env, w1, s0, Crash);
    RestartOfSending();
    var s1 := Restarted(MainAt(Held(FIRST, Accepted, Detached), Detached), FRESH_SWAP, FRESH_SWAP);
    var replay := HtlcStep(MAIN, FIRST, 144, true, 0, true);
    StepReaches(env, w1, s1, replay);
    w := Next(env, w1, s1, replay).0;
    FirstIsReplayed();
  }

  lemma FirstIsReplayed()
    ensures HtlcAccepted(Restarted(MainAt(Held(FIRST, Accepted, Detached), Detached), FRESH_SWAP, FRESH_SWAP),
                         MAIN, FIRST, true, 0, true)
         == Restarted(MainAt(Held(FIRST, Accepted, Pending), Detached), FRESH_SWAP, FRESH_SWAP)
  {
    Hashes();
    var a, b := Held(FIRST, Accepted, Detached), Held(SECOND, Accepted, Detached);
    assert FindHtlc([a, b], FromCln(FIRST, 0)) == Some(0);
    assert [a, b][0 := Held(FIRST, Accepted, Pending)] == [Held(FIRST, Accepted, Pending), b];
  }

  // ---- The claim ----

  const SIGNATURE: Bytes := [9]
  const CLAIM_WITNESS: seq<Bytes> := [SIGNATURE, PREIMAGE]

  function Hash160(x: Bytes): Bytes { Ripemd160(Sha256(x)) }

  /** A transaction context in which the client can sign. */
  function ClientContext(): Context
  {
    Context(0, 0, Hash160, (signature: Bytes, key: Bytes) => true)
  }

  function ClaimTx(script: Bytes): SpendTx
  {
    SpendTx([7], 0, [Input(CLAIM_WITNESS + [script])])
  }

  lemma ClientCanClaim() returns (script: Bytes)
    ensures LockBytes(SCRIPT_LOCK) == Ok(script) && Spends(script, CLAIM_WITNESS, ClientContext())
    ensures !RefundSpend(SCRIPT_LOCK, CLAIM_WITNESS, ClientContext())
  {
    Hashes();
    LockIsValid();
    SpendsIffClaimOrRefund(SCRIPT_LOCK, CLAIM_WITNESS, ClientContext());
    script := LockBytes(SCRIPT_LOCK).value;
  }

  /** The client takes the lockup output, which reveals the preimage. */
  lemma ClientClaims(w: World, s: State, fundings: seq<Hash>) returns (w': World, script: Bytes)
    requires Reachable(TheEnv(), w, s) && Knows(w, map[MAIN := [LOCKUP]], fundings)
    ensures Reachable(TheEnv(), w', s)
    ensures Knows(w', map[MAIN := [LOCKUP.(spent := Some(ClaimTx(script)))]], fundings)
    ensures LockBytes(SCRIPT_LOCK) == Ok(script)
  {
    hide Reachable, Spends, LockBytes, RefundSpend;
    script := ClientCanClaim();
    var spend := SpendLockup(MAIN, 0, ClaimTx(script), CLAIM_WITNESS, ClientContext());
    assert Enabled(TheEnv(), w, s, spend);
    StepReaches(TheEnv(), w, s, spend);
    w' := Next(TheEnv(), w, s, spend).0;
    assert [LOCKUP][0 := LOCKUP.(spent := Some(ClaimTx(script)))] == [LOCKUP.(spent := Some(ClaimTx(script)))];
  }

  /** The world then knows the claim. */
  lemma ClaimIsKnown(w: World, script: Bytes)
    requires Knows(w, map[MAIN := [LOCKUP.(spent := Some(ClaimTx(script)))]], [MAIN])
    requires LockBytes(SCRIPT_LOCK) == Ok(script)
    ensures MAIN in w.terms && MAIN in w.fundings && SwapLock(w, MAIN) == SCRIPT_LOCK
    ensures IsClaimInput(TheEnv(), SCRIPT_LOCK, ClaimTx(script).inputs[0])
    ensures Claimed(TheEnv(), w, MAIN)
  {
    hide LockBytes;
    Hashes();
    assert w.fundings[0] == MAIN;
    var txo := LOCKUP.(spent := Some(ClaimTx(script)));
    assert w.lockups[MAIN][0] == txo;
    assert CLAIM_WITNESS + [script] == [SIGNATURE, PREIMAGE, script];
    assert TheEnv().Hash160(PREIMAGE) == LOCK_HASH;
    assert IsClaimInput(TheEnv(), SCRIPT_LOCK, ClaimTx(script).inputs[0]);
    assert ClaimsLockup(TheEnv(), SCRIPT_LOCK, ClaimTx(script));
  }

  function Seen(script: Bytes): Observation
  {
    Observation(true, 0, [LOCKUP.(spent := Some(ClaimTx(script)))], 1, 0, [])
  }

  const TRAPPED_SWAP: Swap := FUNDED_SWAP.(preimage := Some(PREIMAGE), spendingTxid := Some([7]))

  /** The first HTLC is settled, the second one raises. */
  function HalfSettled(): InvoiceRecord
  {
    MainAt(Held(FIRST, Settled, Answered(ResolveWith(PREIMAGE))), Detached)
  }

  lemma SettleStops()
    ensures Settle(MainAt(Held(FIRST, Accepted, Pending), Detached), PREIMAGE, Sha256) == (HalfSettled(), false)
  {
    Hashes();
    var a, b := Held(FIRST, Accepted, Pending), Held(SECOND, Accepted, Detached);
    SumOfTwo(a, b, Accepted);
    SumOfTwo(a, b, Settled);
    assert FirstStuck([b]) == 0 && [a, b][1..] == [b];
    assert FirstStuck([a, b]) == 1;
    assert ResolveAll([a, b], ResolveWith(PREIMAGE)) == HalfSettled().htlcs;
    FirstStuckIsEnd([a, b]);
  }

  lemma ClaimRaises(script: Bytes)
    ensures ClaimSwap(Restarted(MainAt(Held(FIRST, Accepted, Pending), Detached), FRESH_SWAP, FRESH_SWAP),
                      MAIN, Seen(script), Sha256, true)
         == Claim(Restarted(HalfSettled(), TRAPPED_SWAP, TRAPPED_SWAP), Raised, None, Some(HalfSettled()))
  {
    hide Settle, Held;
    Hashes();
    SettleStops();
    var s := Restarted(MainAt(Held(FIRST, Accepted, Pending), Detached), FRESH_SWAP, FRESH_SWAP);
    var seen := FUNDED_SWAP.(spendingTxid := Some([7]));
    var tx := ClaimTx(script);
    assert tx.inputs[0].elements[1] == PREIMAGE;
    assert FindPreimage(tx.inputs, MAIN, Sha256) == Found(PREIMAGE);
    var swaps0, swaps1 := map[MAIN := FRESH_SWAP], map[MAIN := seen];
    assert swaps0[MAIN := seen] == swaps1 && swaps1[MAIN := TRAPPED_SWAP] == map[MAIN := TRAPPED_SWAP];
    var s1 := SetSwap(s, MAIN, seen);
    assert s1 == Restarted(MainAt(Held(FIRST, Accepted, Pending), Detached), seen, seen);
    var s2 := SetSwap(s1, MAIN, TRAPPED_SWAP);
    assert s2 == Restarted(MainAt(Held(FIRST, Accepted, Pending), Detached), TRAPPED_SWAP, TRAPPED_SWAP);
    assert Touch(s2, MAIN, HalfSettled()) == Restarted(HalfSettled(), TRAPPED_SWAP, TRAPPED_SWAP);
  }

  lemma KnownLockup(w: World, txo: Txo)
    requires Knows(w, map[MAIN := [txo]], [MAIN])
    ensures MAIN in w.lockups && txo in w.lockups[MAIN] && w.lockups[MAIN] == [txo] && w.height == 0
  {
    assert [txo][0] == txo;
  }

  lemma ClaimStepIs(w: World, s: State, o: Observation, txo: Txo, inv: InvoiceRecord)
    requires Knows(w, map[MAIN := [txo]], [MAIN]) && MAIN in s.watching && MAIN in s.mem.swaps
    requires o.height == 0 && o.txos == [txo]
    requires ClaimSwap(s, MAIN, o, Sha256, true).broadcast.None?
    requires ClaimSwap(s, MAIN, o, Sha256, true).settled == Some(inv)
    ensures Enabled(TheEnv(), w, s, ClaimStep(MAIN, o, true))
    ensures Next(TheEnv(), w, s, ClaimStep(MAIN, o, true))
         == (AfterSettle(w, s, MAIN, Some(inv)), ClaimSwap(s, MAIN, o, Sha256, true).state)
    ensures Knows(AfterSettle(w, s, MAIN, Some(inv)), map[MAIN := [txo]], [MAIN])
  {
    hide ClaimSwap, ProviderRuns.Reveals;
    assert [txo][0] == txo;
  }

  /** _claim_swap sees the claim, and raises. */
  lemma HalfClaimed() returns (w: World, script: Bytes)
    ensures Reachable(TheEnv(), w, Restarted(HalfSettled(), TRAPPED_SWAP, TRAPPED_SWAP))
    ensures Knows(w, map[MAIN := [LOCKUP.(spent := Some(ClaimTx(script)))]], [MAIN])
    ensures LockBytes(SCRIPT_LOCK) == Ok(script)
  {
    hide Reachable, ClaimSwap, AfterSettle, Knows, Held, Next, Enabled, MainAt, HalfSettled, ClaimTx, LockBytes;
    var s0 := Restarted(MainAt(Held(FIRST, Accepted, Pending), Detached), FRESH_SWAP, FRESH_SWAP);
    var w0;
    var replayed := HalfReplayed();
    w0, script := ClientClaims(replayed, s0, [MAIN]);
    ClaimRaises(script);
    ClaimStepIs(w0, s0, Seen(script), LOCKUP.(spent := Some(ClaimTx(script))), HalfSettled());
    StepReaches(TheEnv(), w0, s0, ClaimStep(MAIN, Seen(script), true));
    w := AfterSettle(w0, s0, MAIN, Some(HalfSettled()));
  }

  // ---- What the run shows ----

  const REFUSED: HtlcRecord := Held(LATE, Cancelled, Answered(FAIL_DETAILS))

  function TrappedMain(): InvoiceRecord
  {
    HalfSettled().(htlcs := HalfSettled().htlcs + [REFUSED])
  }

  lemma LateIsRefused()
    ensures HandleHtlc(HalfSettled(), LATE, true, 0) == (TrappedMain(), true)
  {
    assert "1" != "4" && "2" != "4";
  }

  function Trapped(): State
  {
    var s := Restarted(HalfSettled(), TRAPPED_SWAP, TRAPPED_SWAP);
    Written(WithInvoice(s.mem, MAIN, TrappedMain()), s)
  }

  lemma TrappedIsStuck()
    ensures Stuck(Trapped(), MAIN)
    ensures MAIN in Trapped().mem.invoices && Trapped().mem.invoices[MAIN].status.FUNDED?
    ensures Has(Trapped().mem.invoices[MAIN].htlcs, Accepted)
  {
    Hashes();
    assert TrappedMain().htlcs[1].state == Accepted;
  }

  /** No continuation of a run settles the hold invoice of swap k. */
  ghost predicate NeverSettles(env: Env, w: World, s: State, k: Hash)
  {
    forall steps: seq<Step> :: Possible(env, w, s, steps) ==> Unsettled(env, RunOf(env, w, s, steps).1, k)
  }

  /** The invoice is SETTLED in no image, and no run of _claim_swap would try to settle it. */
  ghost predicate Unsettled(env: Env, s: State, k: Hash)
  {
    && (forall im :: im in {s.mem, s.tracked, s.disk} && k in im.invoices ==> !im.invoices[k].status.SETTLED?)
    && (k in s.mem.swaps ==> forall o, consolidate :: ClaimSwap(s, k, o, env.sha256, consolidate).settled.None?)
  }

  lemma StuckNeverSettles(env: Env, w: World, s: State, k: Hash)
    requires Reachable(env, w, s) && k in w.terms && Stuck(s, k)
    ensures NeverSettles(env, w, s, k)
  {
    hide Inv, Reachable, Stuck, ClaimSwap, Possible, RunOf;
    ReachableInv(env, w, s);
    forall steps: seq<Step> | Possible(env, w, s, steps) ensures Unsettled(env, RunOf(env, w, s, steps).1, k) {
      forall o, consolidate {
        NeverSettledAfterwards(env, w, s, steps, k, o, consolidate);
      }
      var o0 := Observation(true, 0, [], 0, 0, []);
      NeverSettledAfterwards(env, w, s, steps, k, o0, true);
    }
  }

  /** A reachable state in which the client has the coins, one accepted HTLC of its payment is still waiting, and no
      continuation of the run ever settles the hold invoice. */
  lemma ClaimedButNeverSettled() returns (w: World, s: State)
    ensures Reachable(TheEnv(), w, s) && MAIN in w.terms && MAIN in w.fundings && Claimed(TheEnv(), w, MAIN)
    ensures MAIN in s.mem.invoices && s.mem.invoices[MAIN].status.FUNDED? && Has(s.mem.invoices[MAIN].htlcs, Accepted)
    ensures NeverSettles(TheEnv(), w, s, MAIN)
  {
    hide Reachable, HandleHtlc, Knows, Stuck, Claimed, Restarted, NeverSettles, Has, TheEnv, HalfSettled, TrappedMain;
    var w0, script := HalfClaimed();
    var s0 := Restarted(HalfSettled(), TRAPPED_SWAP, TRAPPED_SWAP);
    MainOfRestarted(HalfSettled(), TRAPPED_SWAP);
    LateIsRefused();
    w := Arrives(w0, s0, MAIN, LATE, map[MAIN := [LOCKUP.(spent := Some(ClaimTx(script)))]], [MAIN]);
    s := Trapped();
    ClaimIsKnown(w, script);
    TrappedIsStuck();
    StuckNeverSettles(TheEnv(), w, s, MAIN);
  }

  lemma MainOfRestarted(main: InvoiceRecord, swap: Swap)
    ensures MAIN in Restarted(main, swap, swap).mem.invoices && Restarted(main, swap, swap).mem.invoices[MAIN] == main
    ensures var im := Restarted(main, swap, swap).disk;
            MAIN in im.invoices && im.invoices[MAIN] == MainAt(Held(FIRST, Accepted, Detached), Detached)
  {
    Hashes();
  }

  /** A reachable state in which a crash takes an HTLC from SETTLED back to ACCEPTED. */
  lemma CrashRegresses() returns (w: World, s: State)
    ensures Reachable(TheEnv(), w, s) && Enabled(TheEnv(), w, s, Crash)
    ensures var s' := Next(TheEnv(), w, s, Crash).1;
            && MAIN in s.mem.invoices && MAIN in s'.mem.invoices
            && |s.mem.invoices[MAIN].htlcs| == |s'.mem.invoices[MAIN].htlcs| == 2
            && Regresses(s.mem.invoices[MAIN].htlcs, s'.mem.invoices[MAIN].htlcs, 0)
            && s.mem.invoices[MAIN].htlcs[0].state.Settled? && s'.mem.invoices[MAIN].htlcs[0].state.Accepted?
  {
    hide Reachable, Knows, Restart, Restarted, OnDisk, HalfSettled, MainAt, Held, LockBytes, TheEnv;
    var script;
    w, script := HalfClaimed();
    s := Restarted(HalfSettled(), TRAPPED_SWAP, TRAPPED_SWAP);
    MainOfRestarted(HalfSettled(), TRAPPED_SWAP);
    RestartReads(s);
    HalvesOf();
  }

  lemma HalvesOf()
    ensures |HalfSettled().htlcs| == 2 && HalfSettled().htlcs[0].state.Settled?
    ensures var main := MainAt(Held(FIRST, Accepted, Detached), Detached);
            |main.htlcs| == 2 && main.htlcs[0].state.Accepted?
  {
  }

  /** A funding transaction is sent in some run, before its lockup output is claimed. */
  lemma FundingHappens() returns (w: World, s: State, st: Step, w': World, s': State)
    ensures Reachable(TheEnv(), w, s) && Enabled(TheEnv(), w, s, st) && st.TurnStep?
    ensures CallbackTurn(s, st.k, st.f, Sha256, st.consolidate, st.consolidateOnFail).attempted
    ensures Next(TheEnv(), w, s, st) == (w', s')
    ensures MAIN in w'.terms && MAIN in w'.fundings && !Claimed(TheEnv(), w', MAIN)
  {
    hide Reachable, CallbackTurn, ProviderRuns.Reveals;
    w, s, st, w', s' := FundingIsSent();
    assert w'.fundings[0] == MAIN;
  }

  /** And in some run _claim_swap sees the claim of a funded swap with every request attached. */
  lemma ClaimIsSeenWhole() returns (w: World, s: State, o: Observation)
    ensures Reachable(TheEnv(), w, s) && Enabled(TheEnv(), w, s, ClaimStep(MAIN, o, true))
    ensures MAIN in w.fundings && MAIN in w.terms && SeesClaim(TheEnv(), w, MAIN, o)
    ensures NoCollision(TheEnv(), MAIN, o.txos[0].spent.value.inputs[0].elements[1])
    ensures s.mem.swaps[MAIN].preimage.None? && Attached(s, MAIN)
  {
    hide Reachable, Sending, IsClaimInput, Attached, ClaimTx, LockBytes;
    var w0 := FundedLockup();
    var script;
    w, script := ClientClaims(w0, Sending(), [MAIN]);
    s, o := Sending(), Seen(script);
    ClaimIsKnown(w, script);
    Hashes();
    SendingIsAttached();
    ClaimHasOneInput(script);
    KnownLockup(w, LOCKUP.(spent := Some(ClaimTx(script))));
  }

  lemma SendingIsAttached()
    ensures MAIN in Sending().watching && MAIN in Sending().mem.swaps && Sending().mem.swaps[MAIN].preimage.None?
    ensures Attached(Sending(), MAIN)
  {
    hide Dump;
    Hashes();
  }

  lemma ClaimHasOneInput(script: Bytes)
    ensures |ClaimTx(script).inputs| == 1 && ClaimTx(script).height == 0
    ensures |ClaimTx(script).inputs[0].elements| == 3 && ClaimTx(script).inputs[0].elements[1] == PREIMAGE
  {
  }

  // ---- An HTLC that is never answered ----

  const PREPAID: HtlcId := (PREPAY, "3", 0, 2_000_000)

  lemma PaidIsSettled()
    ensures Settle(PaidMain(), PREIMAGE, Sha256).1
  {
    Hashes();
    var a, b := Held(FIRST, Accepted, Pending), Held(SECOND, Accepted, Pending);
    SumOfTwo(a, b, Accepted);
    SumOfTwo(a, b, Settled);
  }

  lemma WholeClaim(script: Bytes)
    ensures var r := ClaimSwap(Saved(Paid(), {MAIN}, {}), MAIN, Seen(script), Sha256, true);
            r.settled.Some? && r.broadcast.None? && PREPAY !in r.state.mem.invoices
  {
    hide Settle, Held, Dump;
    Hashes();
    PaidIsSettled();
    var tx := ClaimTx(script);
    assert tx.inputs[0].elements[1] == PREIMAGE;
    assert FindPreimage(tx.inputs, MAIN, Sha256) == Found(PREIMAGE);
  }

  lemma PrepayWaits()
    ensures Waits(Paid(), PREPAID) && MAIN in Paid().swaps && Paid().swaps[MAIN] == FRESH_SWAP
  {
    Hashes();
    assert IdOf(PREPAY, Paid().invoices[PREPAY].htlcs[0]) == PREPAID;
  }

  lemma WholeClaimAnswers(w: World, s: State, o: Observation)
    requires MAIN in s.mem.swaps
    requires ClaimSwap(s, MAIN, o, Sha256, true).settled.Some? && ClaimSwap(s, MAIN, o, Sha256, true).broadcast.None?
    ensures !HasAnswer(AfterClaim(TheEnv(), Unanswered(w), s, MAIN, o, true), PREPAID)
  {
    hide ClaimSwap, ProviderRuns.Reveals;
    Hashes();
    assert MAIN != PREPAID.0;
  }

  /** A reachable state and claim step in which an HTLC that waits is taken out of the live tree without an answer: it
      paid the prepay invoice of a swap whose lockup output somebody else had funded. */
  lemma PrepayIsForgotten() returns (w: World, s: State, st: Step)
    ensures Reachable(TheEnv(), w, s) && Enabled(TheEnv(), w, s, st) && Enabled(TheEnv(), Unanswered(w), s, st)
    ensures Waits(s.mem, PREPAID) && !Waits(Next(TheEnv(), w, s, st).1.mem, PREPAID)
    ensures !HasAnswer(Next(TheEnv(), Unanswered(w), s, st).0, PREPAID)
  {
    hide Reachable, Paid, ClaimTx, LockBytes, Waits, HasAnswer, ClaimSwap;
    s := Saved(Paid(), {MAIN}, {});
    var w0 := PaidFor();
    var deposit := Deposit(MAIN, FUNDING_TXID, 99_000);
    StepReaches(TheEnv(), w0, s, deposit);
    var w1 := Next(TheEnv(), w0, s, deposit).0;
    assert [] + [LOCKUP] == [LOCKUP];
    var script;
    w, script := ClientClaims(w1, s, []);
    st := ClaimStep(MAIN, Seen(script), true);
    PrepayWaits();
    assert w.lockups[MAIN][0] == LOCKUP.(spent := Some(ClaimTx(script)));
    assert Enabled(TheEnv(), w, s, st) && Enabled(TheEnv(), Unanswered(w), s, st);
    WholeClaim(script);
    WholeClaimAnswers(w, s, Seen(script));
    NotThere(Next(TheEnv(), w, s, st).1.mem);
  }

  lemma NotThere(im: Image)
    requires PREPAY !in im.invoices
    ensures !Waits(im, PREPAID)
  {
  }
}
