# A model of the submarine swap provider

The repository is a plugin for Core Lightning that swaps bitcoin on chain against bitcoin in Lightning channels. A client
pays hold invoices over Lightning and the provider locks coins on chain for it, which the client claims by revealing the
preimage (a *normal* swap), or the other way round (a *reverse* swap). This project models the plugin's core and proves
what keeps the provider from losing money, from paying twice and from losing its records.

| part | modules |
|---|---|
| the provider as a step machine | `Invoices`, `Provider`, `ProviderRuns`, `ProviderInvariant`, `ProviderSteps`, `ProviderSettles`, `ProviderClaims`, `ProviderCreates`, `ProviderSafety`, `ProviderSettlement`, `ProviderMoves`, `ProviderStuck`, `ProviderHtlcs`, `ProviderOutcomes`, `ProviderWitness` |
| its objects | `HoldInvoiceObjects`, `ProviderObjects`, `SwapManagerObjects` |
| the journaled database | `Decimal`, `JsonString`, `Json`, `JsonPatch`, `JsonTree`, `Journal`, `TornRecord`, `JsonDb`, `JsonDbObjects`, `InvoiceJson`, `ProviderDoc`, `ProviderStore`, `ProviderSaves` |
| the lock script | `Wire`, `Script`, `LockScript` |
| fees | `Fees` |
| streaming RIPEMD-160 | `Ripemd` |
| codecs | `Bech32`, `Bech32Hrp`, `Bech32Text`, `ConvertBits`, `BaseCodec`, `Taproot`, `Descriptor`, `TxCodec`, `TxStream`, `LnAmount`, `Utf8`, `Lnaddr` |

**How the parts fit.** `Provider` holds the state (live database, what its durable text would hold with the pending
changes, what it holds, and the callback tables) and every operation on it as a function. `ProviderRuns` puts these
next to a chain and a Lightning node, with steps in any order and crashes anywhere. `ProviderInvariant` says what holds
in every reachable state, the modules behind it prove it step by step, and `ProviderSafety` draws the conclusions.
`ProviderSettlement` says exactly when a claimed swap is settled, `ProviderMoves` how HTLCs move over the steps of a
run, `ProviderStuck` what a missed settlement leads to, `ProviderHtlcs` which HTLCs are accepted and that none is
forgotten, `ProviderOutcomes` when swaps are funded and dropped, and `ProviderWitness` walks through concrete runs. The
classes in `HoldInvoiceObjects`, `ProviderObjects`, `SwapManagerObjects`, `JsonDbObjects`, `Ripemd`, `TxStream` and
`Lnaddr` have the source's fields; each of their methods is proved to do to the fields, and to the live invoice objects
behind them, what the function that the theorems are about does to the value, and the two polling loops are proved to
be runs. `ProviderStore` puts the images of the run model on top of the journaled store: each of their edits is an edit
of the JSON document, of the records that are pending, or of the text, and what a crash leaves loads as the durable
image. `ProviderSaves` composes these edits to the operations of the provider, up to a whole run of `_claim_swap`. In
`ProviderRuns` a lockup output can only be spent by a witness that the interpreter in `LockScript` accepts.

**What is assumed.** The hash functions are parameters about which nothing is known but, where stated, their length; no
theorem needs them to be injective, except that two ask of the one element a claim reveals that it is no collision with
the lock of the payment hash (`ProviderSettlement.NoCollision`). Signatures are a predicate of key and signature, and
the refund key only signs what the provider signs. Each request brings fresh payment hashes and an amount in range.
Heights never decrease. The methods run under their locks, one at a time.

**Where the code falls short of its apparent intent** the model follows the code:

- A hold invoice is settled only by the run of `_claim_swap` that first finds the preimage. If one accepted HTLC has no
  request attached at that moment, the run raises after recording the preimage, and from the next save on nothing settles
  the invoice any more: the client has the coins, and the accepted HTLCs are left to time out
  (`ProviderSettlement.SettledExactlyWhen`, `ProviderStuck.MissingRequestTraps`, `ProviderStuck.NeverSettledAfterwards`,
  `ProviderWitness.ClaimedButNeverSettled`). An unconfirmed spend without a preimage, and an empty preimage, raise.
- `settle` changes its HTLCs in place and is saved only when it is complete, so a crash takes those that were answered back
  to ACCEPTED (`ProviderMoves.RegressesExactlyWhen`, `ProviderWitness.CrashRegresses`).
- When a swap is settled that somebody else had funded, its prepay invoice is deleted with HTLCs that may still wait, which
  are then never answered (`ProviderHtlcs.TakenMeansAnswered`, `ProviderWitness.PrepayIsForgotten`).
- A swap whose lockup output was spent more than 30 blocks ago is dropped before its preimage is looked for.
- The hold invoice branch of `_fail_swap` compares bytes with hex strings and is never taken.
- The expiry check raises while the prepay invoice still exists, so the invoice is cancelled but not deleted.
- An attribute of a stored object set to a value that Python calls equal (`True` for `1`) changes in memory only
  (`JsonDbObjects.JsonDB.SetAttribute`). An assignment of the same live object without removing it first records nothing,
  which is why `update_invoice` pops first.
- An append torn inside its separator, or made to an entry without a snapshot, leaves a text that cannot be loaded;
  records appended behind a torn one are lost; and a torn record behind an empty state is refused
  (`Journal.LoadOfTornSeparator`, `Journal.LoadWithoutSnapshot`, `TornRecord.AppendsBehindPartialAreLost`,
  `Journal.LoadOfTornRecord`).
- `Transaction.deserialize` exposes the inputs before it checks the locktime and the end of the text, so a second call on
  the same object returns normally (`TxStream.Transaction.Deserialize`).
- The description of a payment request is cut off after 639 bytes, also inside a character, and then `lndecode` raises on
  what `lnencode_unsigned` wrote (`Lnaddr.DescriptionReadBack`, `Lnaddr.CutInsideIsRefused`).
- The timestamp of a payment request is never padded to its seven places (`Lnaddr.ShortDateIsMisread`).
- The one-byte string 00 is pushed as OP_0, which reads as an empty push (`Script.GetOpOfPush`).

## Model

| member | source | states |
|---|---|---|
| ProviderSafety.AtMostOneFunding | swap-provider/plugin/cln_lightning.py:115-148 | In every run, with crashes anywhere and turns and claims interrupted halfway, no swap is in the list of sent funding transactions twice. |
| ProviderSafety.BroadcastIsCovered | swap-provider/plugin/cln_lightning.py:120-145 | In the very step that sends a funding transaction: it is the first for that swap, the amounts and expiries cover it, and the prepay invoice is already SETTLED on disk. |
| ProviderSafety.SettledOnlyAfterClaim | swap-provider/plugin/submarine_swaps.py:339-349 | In every reachable state, in the live, tracked and durable image: an HTLC of the main invoice is settled, its preimage handed to the node, or the invoice SETTLED, only if a lockup output of that swap was spent through the hash branch. |
| ProviderSafety.RefundsAreDue | swap-provider/plugin/submarine_swaps.py:363-407 | Every refund ever broadcast was made at or after the locktime, without a (non-empty) preimage known, and with the locktime of the swap, so that with a signature of the refund key it spends the lock. |
| ProviderSafety.ReverseClaimsAreCovered | swap-provider/plugin/submarine_swaps.py:304-407 | Every claim transaction ever broadcast for a reverse swap, and with it the preimage, went out only against an output on the chain that the backend reported as unspent and confirmed and that pays at least the amount the swap was created with; it reveals the preimage of the payment hash, of 32 bytes, and with a signature of the claim key spends the lock the swap was created with. |
| ProviderSafety.ReachableInvoicesAreWellFormed | swap-provider/plugin/invoices.py:192-285 | Every invoice of every image of a reachable state: no two equal HTLCs; FUNDED against UNFUNDED exactly by accepted plus settled value; no accepted HTLC in SETTLED or FAILED. |
| ProviderSafety.StepKeepsInv | swap-provider/plugin/cln_lightning.py:76-229 | The invariant behind those results is kept by every one of the sixteen kinds of step: creating (also interrupted at each save), HTLC arrival and replay, callback turns (also interrupted between the settlement of the prepay invoice and the callback), expiry, claims (also interrupted before the save), blocks, spends, crash. |
| ProviderSafety.RunKeepsInv | swap-provider/plugin/cln_lightning.py:76-229 | By induction, every possible sequence of steps keeps it. |
| ProviderSafety.ReachableInv | swap-provider/plugin/submarine_swaps.py:124-155 | It holds in every state reachable from an empty database. |
| ProviderSafety.FundedOnce | swap-provider/plugin/cln_lightning.py:128-145 | A swap whose prepay invoice is still FUNDED was never funded: the prepay invoice is the lock against a second funding. |
| ProviderSafety.SpendIsProper | swap-provider/plugin/submarine_swaps.py:57-74 | Whatever witness the chain accepts for a lockup output either takes the hash branch or is the refund the provider signed; from the script theorem below. |
| ProviderSafety.ClaimInterruptedInv | swap-provider/plugin/submarine_swaps.py:271-285 | A crash after the preimage went to the Lightning node, or a refund to the chain, and before the save keeps the invariant. |
| ProviderSafety.RestartInv | swap-provider/plugin/submarine_swaps.py:145-155 | Reloading the durable form after a crash, which drops open normal swaps without an invoice, keeps the invariant. |
| ProviderSafety.FundingIsCovered | swap-provider/plugin/submarine_swaps.py:420-497 | In every reachable state in which a swap was funded, for the live, the tracked and the durable image, and until the lockup output is claimed and the image knows the preimage or has dropped the swap: the accepted HTLCs of the hold invoice and the settled ones of the prepay invoice bring in the Lightning amount, which is the on-chain amount plus percentage fee plus lockup fee, and every accepted HTLC expires at least 74 blocks after the locktime. |
| ProviderSafety.ImageCovers | swap-provider/plugin/submarine_swaps.py:432-497 | The covering statement, with the hold invoice FUNDED, for any image that satisfies the invariant. |
| ProviderSafety.NothingSettledYet | swap-provider/plugin/submarine_swaps.py:339-349 | Before the claim, and after it as long as an image holds the swap without a preimage, no HTLC of the hold invoice is settled in it. |
| ProviderSafety.TurnInterruptedInv | swap-provider/plugin/cln_lightning.py:128-145 | A crash after the HTLCs of the prepay invoice were answered keeps the invariant, whether it comes before or after they are saved as settled. |
| ProviderSettlement.ClaimSettlesEverything | swap-provider/plugin/submarine_swaps.py:332-349 | In every reachable state: when _claim_swap sees a single-input spend through the hash branch, unconfirmed or at most 30 blocks deep, of a swap whose funding was sent and that holds no preimage, with every request attached, that run settles every accepted HTLC with the revealed preimage and removes invoice and swap from memory and disk, unless the revealed element is a ripemd collision. |
| ProviderSettlement.SettledExactlyWhen | swap-provider/plugin/submarine_swaps.py:332-349 | In every reachable state: a run of _claim_swap ends with the hold invoice SETTLED if and only if the backend is up to date, the swap is normal and holds no preimage, its first output is spent, unconfirmed or at most 30 blocks deep, by a transaction in which a non-empty preimage is found, every accepted HTLC has its request, and the invoice is there and funded, which it always is once the funding was sent. |
| ProviderSettlement.TriedExactlyWhen | swap-provider/plugin/submarine_swaps.py:271-285 | When settling the hold invoice is tried at all, and what it does to the invoice. |
| ProviderSettlement.FundedInvoice | swap-provider/plugin/submarine_swaps.py:271-285 | A funded swap without a preimage has its hold invoice in memory, FUNDED, under its own payment hash, and apart from its prepay invoice. |
| ProviderSettlement.ClaimReveals | swap-provider/plugin/submarine_swaps.py:341-349 | The input of a hash-branch spend gives the search loop the preimage, unless its sha256 is a ripemd collision with the payment hash. |
| ProviderSafety.SentExactlyWhen | swap-provider/plugin/submarine_swaps.py:304-407 | In every reachable state, for the output that _claim_swap works on: a claim of a reverse swap, with its preimage, is broadcast exactly when the output is unspent and confirmed and worth more than dust and fee; the refund of a normal swap exactly when in addition the locktime is reached and no non-empty preimage is known; and nothing else. |
| ProviderSafety.NothingSent | swap-provider/plugin/submarine_swaps.py:299-318 | Without an up-to-date backend, or an output that pays enough, nothing is broadcast. |
| ProviderClaims.BroadcastExactlyWhen | swap-provider/plugin/submarine_swaps.py:363-407 | The same for any state, with what the transaction spends, its amount, its locktime and what it reveals. |
| ProviderOutcomes.FundedExactlyWhen | swap-provider/plugin/cln_lightning.py:120-148 | In every reachable state: a turn sends a funding transaction exactly if the hold invoice is FUNDED, its prepay invoice can be settled now, the swap has no funding txid yet, and the wallet made a transaction. |
| ProviderOutcomes.FundingLeaves | swap-provider/plugin/submarine_swaps.py:420-430 | What such a turn leaves for each answer of the wallet: the txid is recorded and the callback over; after a failed broadcast the swap stays, live and on disk, unwatched; without a transaction it is dropped; and if the wallet raises the callback stays. |
| ProviderOutcomes.DroppedExactlyWhen | swap-provider/plugin/submarine_swaps.py:332-362 | A swap with a usable output is dropped exactly after a spend more than 30 blocks deep, its own confirmed refund, or a found preimage with which the hold invoice can be settled. |
| ProviderOutcomes.UnfundedDroppedExactlyWhen | swap-provider/plugin/submarine_swaps.py:304-318 | Without a usable output a swap is given up once its locktime is reached: no longer watched, and dropped exactly if it was not funded or is redeemed; before that nothing changes. |
| ProviderOutcomes.FinishLeavesNothing | swap-provider/plugin/submarine_swaps.py:271-285 | Once a swap is settled nothing of it is left, live or on disk: neither invoice, no preimage, no swap, no callback, no watch. |
| ProviderOutcomes.RestartResumes | swap-provider/plugin/submarine_swaps.py:145-173 | After a crash the live tree is what the disk had, but for open normal swaps without an invoice; every open swap is watched again and every open normal one has its callback. |
| ProviderOutcomes.CreatedIs | swap-provider/plugin/submarine_swaps.py:457-522 | What creating a swap leaves: both invoices with their amounts and expiry, bundled, the preimage of the prepay invoice, and the swap; all on disk but the swap. |
| ProviderStuck.MissingRequestTraps | swap-provider/plugin/submarine_swaps.py:271-285 | In every reachable state: when the preimage of a funded swap is found while an accepted HTLC has no request, the run raises, and after the next save every image knows the preimage of a swap that is not settled. |
| ProviderStuck.NeverSettledAfterwards | swap-provider/plugin/submarine_swaps.py:332-349 | From there no continuation of the run, with crashes anywhere, has the invoice SETTLED in any image, and no run of _claim_swap tries to settle it. |
| ProviderStuck.StepKeepsStuck | swap-provider/plugin/submarine_swaps.py:332-349 | Every kind of step keeps a swap in that trap. |
| ProviderWitness.ClaimedButNeverSettled | swap-provider/plugin/submarine_swaps.py:332-349 | A concrete run, from creating the swap over two payments, funding, a crash, the replay of one HTLC only and the claim, that reaches that trap with the coins gone and an HTLC still accepted. |
| ProviderWitness.CrashRegresses | swap-provider/plugin/invoices.py:263-273 | A concrete reachable state in which a crash takes an HTLC from SETTLED back to ACCEPTED. |
| ProviderWitness.FundingHappens | swap-provider/plugin/cln_lightning.py:115-148 | A concrete reachable state and turn that send a funding transaction, after which its lockup output is unclaimed. |
| ProviderWitness.ClaimIsSeenWhole | swap-provider/plugin/submarine_swaps.py:332-349 | A concrete reachable state in which the claim is seen with every request attached. |
| ProviderHtlcs.AcceptedWereVetted | swap-provider/plugin/cln_lightning.py:190-221 | In every reachable state and every image: an HTLC that is ACCEPTED or SETTLED arrived with its invoice's payment secret, while decodepay could read the invoice, and with the blocks left that the invoice and the provider ask for. |
| ProviderHtlcs.NewHtlcExactlyWhen | swap-provider/plugin/cln_lightning.py:175-229 | In the other direction: a new HTLC is stored behind the others, live and on disk, as ACCEPTED with its request waiting if and only if the invoice is UNFUNDED and those conditions hold, and otherwise as CANCELLED and failed at once; the invoice becomes FUNDED exactly when it was accepted and the sum is reached. |
| ProviderHtlcs.NoHtlcIsForgotten | swap-provider/plugin/cln_lightning.py:76-229 | In every reachable state, with crashes anywhere: each HTLC that ever arrived for a hold invoice was answered, or is stored as ACCEPTED live and on disk, or paid the prepay invoice of a swap that was claimed although the provider never sent its funding. |
| ProviderHtlcs.TakenMeansAnswered | swap-provider/plugin/cln_lightning.py:93-113 | From every reachable state: when a step takes an ACCEPTED HTLC out of the live tree or out of that state, it is answered in that very step; the one exception is the prepay invoice that _finish_normal_swap deletes, of a swap that the provider never funded. |
| ProviderHtlcs.StepLosesNone | swap-provider/plugin/cln_lightning.py:76-229 | The same for a single step from any state that satisfies the invariant. |
| ProviderWitness.PrepayIsForgotten | swap-provider/plugin/submarine_swaps.py:271-285 | A concrete reachable state and claim step for that exception: an HTLC that waits is taken away without an answer, in a swap whose lockup output somebody else had funded. |
| ProviderMoves.LiveHtlcsStayResolved | swap-provider/plugin/invoices.py:98-180 | From every reachable state, no step other than a restart takes an HTLC of a live hold invoice out of SETTLED or CANCELLED, or drops one from an invoice that stays. |
| ProviderMoves.DurableHtlcsStayResolved | swap-provider/plugin/invoices.py:98-180 | On disk no step does, restarts included. |
| ProviderMoves.RunKeepsResolved | swap-provider/plugin/invoices.py:98-180 | Nor does any run, however long, for an invoice that is there at both ends. |
| ProviderMoves.RegressesExactlyWhen | swap-provider/plugin/invoices.py:275-285 | When the process dies and starts again, an HTLC leaves SETTLED or CANCELLED in the live tree if and only if it was still ACCEPTED on disk before the step and the step had not saved the invoice: a creation saves all live invoices when it consolidates, a turn the prepay invoice it settled, and all of them when it consolidates. |
| ProviderMoves.GoneStaysGone | swap-provider/plugin/cln_lightning.py:351-360 | A deleted invoice never comes back. |
| ProviderClaims.FoundMeansClaimed | swap-provider/plugin/submarine_swaps.py:341-349 | A non-empty element that hashes to the payment hash in a spender of the lockup output can only come from its hash branch. |
| ProviderClaims.SettleMeansClaimed | swap-provider/plugin/submarine_swaps.py:271-285 | Settling the hold invoice is only ever tried after a claim of the lockup output. |
| ProviderClaims.SettleMeansFound | swap-provider/plugin/submarine_swaps.py:339-349 | Settling is only tried with a preimage from the first usable output's spender. |
| ProviderClaims.BroadcastIsDue | swap-provider/plugin/submarine_swaps.py:363-407 | When and how a refund or claim is broadcast: unspent output, confirmed funding, above dust, for a refund the locktime reached, set as the locktime, and no preimage known. |
| ProviderClaims.ClaimGood | swap-provider/plugin/submarine_swaps.py:297-407 | A run of _claim_swap on any report of the chain keeps all three images of the database consistent with the history. |
| ProviderClaims.FinishGood | swap-provider/plugin/submarine_swaps.py:271-285 | Settling and removing a swap whose lockup output was claimed keeps the images consistent, also where it raises. |
| ProviderSettles.SettlePrepayGood | swap-provider/plugin/cln_lightning.py:128-145 | Settling the prepay invoice keeps the images consistent, also where it raises. |
| ProviderSettles.SettlePrepayResult | swap-provider/plugin/cln_lightning.py:128-145 | If the turn may go on to the callback, the prepay invoice was FUNDED before and is SETTLED in memory and on disk, and the main invoice and all swaps are unchanged. |
| ProviderSettles.HoldInvoiceCallbackGood | swap-provider/plugin/submarine_swaps.py:420-430 | The callback attempts a funding only for a swap without funding txid, touches no invoice, and keeps the images consistent whatever the wallet answers. |
| ProviderSettles.FailSwapGood | swap-provider/plugin/submarine_swaps.py:250-269 | Failing a swap keeps the images consistent and changes no invoice. |
| ProviderSettles.FundingRecorded | swap-provider/plugin/submarine_swaps.py:420-430 | Adding the first funding of a swap to the history is consistent once the prepay invoice is durably settled and the main one FUNDED. |
| ProviderSteps.HtlcGood | swap-provider/plugin/cln_lightning.py:150-229 | Arrival or replay of an HTLC keeps the images consistent, including the expiry of each accepted HTLC. |
| ProviderSteps.AddedLateEnough | swap-provider/plugin/cln_lightning.py:203-225 | The relative expiry check of handle_htlc makes an accepted HTLC expire 74 blocks after the swap's locktime. |
| ProviderSteps.ExpiryGood | swap-provider/plugin/cln_lightning.py:93-113 | The expiry check keeps the images consistent, also where it raises. |
| ProviderCreates.CreateGood | swap-provider/plugin/submarine_swaps.py:432-497 | Creating a normal swap, stopped after any of its saves, keeps the images consistent. |
| ProviderCreates.RestartGood | swap-provider/plugin/submarine_swaps.py:145-155 | Reloading the durable form keeps the images consistent. |
| Invoices.HandleHtlcKeepsWellFormed | swap-provider/plugin/cln_lightning.py:175-229 | Adding, refusing or re-attaching an HTLC keeps an invoice well formed. |
| Invoices.SettleKeepsWellFormed | swap-provider/plugin/invoices.py:263-273 | Settling, complete or stopped by an exception halfway, keeps it well formed, and a complete one ends in SETTLED. |
| Invoices.CancelAllKeepsWellFormed | swap-provider/plugin/invoices.py:257-261 | Cancelling an invoice that is neither FUNDED nor SETTLED keeps it well formed, and a complete one ends in FAILED. |
| Invoices.StoredKeepsWellFormed | swap-provider/plugin/invoices.py:275-285 | An invoice is well formed exactly if its stored form is. |
| Invoices.FullyFundedIsFunded | swap-provider/plugin/invoices.py:251-255 | In a well-formed invoice is_fully_funded and the statuses FUNDED and SETTLED say the same. |
| Invoices.SettledIsPaid | swap-provider/plugin/invoices.py:263-273 | A SETTLED invoice was paid in full by settled HTLCs. |
| Invoices.ReplayChangesNoSum | swap-provider/plugin/cln_lightning.py:175-229 | After a reload, replaying a stored HTLC attaches its request, and changes no state, sum or status and needs no save. |
| Invoices.InterruptedSettleCompletes | swap-provider/plugin/invoices.py:263-273 | A settle that stopped at a missing request completes when retried with the requests back, answers only what the first run left, and settles the whole counted value. |
| Invoices.ResolveAllSums | swap-provider/plugin/invoices.py:257-273 | Settling conserves the counted value, failing never adds to the accepted nor changes the settled value. |
| Invoices.FindHtlc | swap-provider/plugin/invoices.py:245-249 | The first HTLC equal to the given one, None exactly if there is none. |
| HoldInvoiceObjects.Htlc.Answer | swap-provider/plugin/invoices.py:156-180 | fail, fail_timeout and settle on the object: false where they raise, and then nothing changed. |
| HoldInvoiceObjects.HoldInvoice.constructor | swap-provider/plugin/invoices.py:203-231 | Builds objects whose record is the stored one. |
| HoldInvoiceObjects.HoldInvoice.AttachPrepayInvoice | swap-provider/plugin/invoices.py:233-239 | Attaches once; a second time raises and changes nothing. |
| HoldInvoiceObjects.HoldInvoice.FindHtlcObject | swap-provider/plugin/invoices.py:245-249 | The object of the first equal HTLC. |
| HoldInvoiceObjects.HoldInvoice.FullyFunded | swap-provider/plugin/invoices.py:251-255 | The summing loop decides whether accepted plus settled value reaches the amount. |
| HoldInvoiceObjects.HoldInvoice.CancelAllHtlcs | swap-provider/plugin/invoices.py:257-261 | The loop over live objects does what CancelAll does to the record, also when an exception ends it early; it returns normally exactly if every ACCEPTED object had its request, and then each of them was failed. |
| HoldInvoiceObjects.HoldInvoice.SettleInvoice | swap-provider/plugin/invoices.py:263-273 | settle on live objects does what Settle does to the record: it refuses a wrong preimage or missing funds, and stops where an HTLC raises. |
| HoldInvoiceObjects.HoldInvoice.AcceptHtlc | swap-provider/plugin/cln_lightning.py:175-229 | handle_htlc on live objects does what HandleHtlc does to the record; a new HTLC object waits as ACCEPTED if and only if decoding, status, expiry and payment secret are in order, and is failed otherwise; other HTLC objects stay untouched. |
| ProviderObjects.HoldInvoices.SettleLive | swap-provider/plugin/invoices.py:263-273 | settle on the live object at one key does what Settle does to its record and leaves every other invoice object alone. |
| ProviderObjects.HoldInvoices.AcceptLive | swap-provider/plugin/cln_lightning.py:175-229 | handle_htlc on the live object at one key, the same way. |
| ProviderObjects.HoldInvoices.CancelLive | swap-provider/plugin/invoices.py:257-261 | cancel_all_htlcs on the live object at one key, the same way. |
| ProviderObjects.Database.constructor | swap-provider/plugin/json_db.py:243-266 | Loading makes one object for every stored invoice, none shared. |
| ProviderObjects.CLNLightning.UpdateInvoice | swap-provider/plugin/cln_lightning.py:169-173 | Popping the live object, setting it again and writing makes what it stands for durable, and changes nothing live. |
| ProviderObjects.CLNLightning.BundlePayments | swap-provider/plugin/cln_lightning.py:443-449 | Popping the live object, attaching the prepay invoice to it and saving it is one save of the changed invoice; with a prepay invoice already attached it raises and the object is gone. |
| ProviderObjects.CLNLightning.HtlcAccepted | swap-provider/plugin/cln_lightning.py:150-229 | The hook, through the live object and its HTLC objects, is the HTLC step of the run model. |
| ProviderObjects.CLNLightning.CheckInvoiceExpiry | swap-provider/plugin/cln_lightning.py:93-113 | The expiry check through the live object is the expiry step; it deletes exactly if it returns normally for an expired open invoice; every HTLC object that was ACCEPTED was then failed, as it was where the prepay invoice makes the check raise; with a detached one nothing is deleted; and an invoice that is not expired and open stays as it is. |
| ProviderObjects.CLNLightning.MonitorExpiries | swap-provider/plugin/cln_lightning.py:76-91 | The loop over a copy of the keys is a pass of expiry checks, ended by the first deletion or exception. |
| ProviderObjects.CLNLightning.SettlePrepay | swap-provider/plugin/cln_lightning.py:128-145 | Settling the live prepay object and saving it is that part of a turn, with its five outcomes. |
| SwapManagerObjects.SwapManager.Startup | swap-provider/plugin/submarine_swaps.py:124-155 | The loop over the loaded swaps leaves the state Restart describes: stale swaps dropped, callbacks registered for the rest. |
| SwapManagerObjects.SwapManager.CallbackTurn | swap-provider/plugin/cln_lightning.py:115-148 | One turn of callback_handler over the live invoices is the turn of the run model, exceptions included. |
| SwapManagerObjects.SwapManager.CallbackHandler | swap-provider/plugin/cln_lightning.py:115-148 | The loop over a copy of the callback table is a pass of turns, ended by the first exception. |
| SwapManagerObjects.HandlerIsRun | swap-provider/plugin/cln_lightning.py:115-148 | Such a pass, for any order of the callback table, is a run of the model: StartSweep and then one enabled turn for each key up to the first exception. |
| SwapManagerObjects.ExpiryPassIsRun | swap-provider/plugin/cln_lightning.py:76-91 | A pass of monitor_expiries is a run of expiry steps. |
| SwapManagerObjects.SwapManager.FinishNormalSwap | swap-provider/plugin/submarine_swaps.py:271-285 | _finish_normal_swap settles the live object and cleans up as the run model does, up to the exception that stops it. |
| SwapManagerObjects.SwapManager.ClaimSwap | swap-provider/plugin/submarine_swaps.py:297-407 | _claim_swap over the live invoices, for every report of the chain, ends in the state, exception, broadcast and settlement that the run model gives. |
| SwapManagerObjects.SwapManager.CreateNormalSwap | swap-provider/plugin/submarine_swaps.py:432-497 | create_normal_swap makes two invoice objects and runs through the saves of the run model, and stops where an invoice amount is not positive. |
| SwapManagerObjects.FindOutput | swap-provider/plugin/submarine_swaps.py:307-318 | The loop over the outputs picks the first one that pays enough. |
| SwapManagerObjects.FindPreimageIn | swap-provider/plugin/submarine_swaps.py:341-350 | The loop over the spender's inputs finds the first preimage, and raises on a short witness. |
| JsonDbObjects.JsonDB.Write | swap-provider/plugin/json_db.py:396-413 | Afterwards the stored text alone loads as the recorded tree, and as the live tree if nothing was changed in place since it was last set. |
| JsonDbObjects.JsonDB.CleanAgrees | swap-provider/plugin/json_db.py:243-266 | At any time, stored text plus pending records load as the recorded tree; without in-place changes that is the live tree. |
| JsonDbObjects.JsonDB.Update | swap-provider/plugin/cln_lightning.py:169-173 | Pop-then-set of an object changed in place, and a write: the stored text loads as the whole live tree again if that object was the only one changed. |
| JsonDbObjects.JsonDB.SetItem | swap-provider/plugin/json_db.py:137-174 | Setting a key changes the live tree and keeps the invariant that snapshot, records and pending records lead to the recorded tree. |
| JsonDbObjects.JsonDB.PopItem | swap-provider/plugin/json_db.py:183-192 | Pop returns the value, takes the key off the live tree, and keeps the same invariant. |
| JsonDbObjects.JsonDB.SetAttribute | swap-provider/plugin/json_db.py:98-119 | An attribute assignment keeps it too; one set to a value that Python calls equal (True for 1) is left unrecorded, and exactly then. |
| JsonDbObjects.JsonDB.AppendItem | swap-provider/plugin/json_db.py:195-215 | A list append ends up at the same index in the live and the replayed list. |
| JsonDbObjects.JsonDB.RemoveItem | swap-provider/plugin/json_db.py:195-215 | A list removal takes off the first equal item, is replayed at its index, and fails exactly if no item is equal. |
| JsonDbObjects.JsonDB.ChangeInPlace | swap-provider/plugin/json_db.py:98-119 | A change the database does not see is remembered as a difference at that path only. |
| JsonDbObjects.JsonDB.constructor | swap-provider/plugin/json_db.py:243-266 | Loading a journal gives the replayed tree, in agreement with the text. |
| JsonDbObjects.JsonDB.AppendPendingChanges | swap-provider/plugin/json_db.py:403-413 | Appends exactly the pending records and clears them. |
| JsonDbObjects.JsonDB.WriteAndForceConsolidation | swap-provider/plugin/json_db.py:416-424 | Replaces the text by a snapshot of the live tree, if anything was modified. |
| JsonDbObjects.CLNStorage.Write | swap-provider/plugin/cln_storage.py:53-68 | Replaces the entry and remembers the size of the snapshot. |
| JsonDbObjects.CLNStorage.Append | swap-provider/plugin/cln_storage.py:75-88 | Appends to the entry and keeps the size of the snapshot. |
| JsonDbObjects.CLNStorage.NeedsConsolidation | swap-provider/plugin/cln_storage.py:101-102 | Says exactly whether the appended records outweigh the snapshot. |
| JsonDb.SetTracks | swap-provider/plugin/json_db.py:137-174 | Replaying the record of an assignment onto the recorded tree stays in step with the live tree, also next to objects changed in place. |
| JsonDb.PopTracks | swap-provider/plugin/json_db.py:183-192 | Replaying the record of a removal stays in step with the live tree. |
| JsonDb.ListEditTracks | swap-provider/plugin/json_db.py:195-215 | Replaying the record of a list edit at an index stays in step with the live tree. |
| JsonDb.InPlaceTracks | swap-provider/plugin/json_db.py:98-119 | An unrecorded change widens the difference by its path only. |
| JsonDb.SilentSetTracks | swap-provider/plugin/json_db.py:98-119 | An attribute set to an equal value in Python's sense, which is not recorded, widens the difference by that attribute only. |
| JsonDb.TextLoadsAsSeen | swap-provider/plugin/json_db.py:243-266 | The text that is stored, with the pending records, is a journal and loads as the recorded tree. |
| Journal.LoadOfJournal | swap-provider/plugin/json_db.py:243-266 | A snapshot and records load as the snapshot with the records applied. |
| Journal.LoadOfTornRecord | swap-provider/plugin/json_db.py:287-300 | A last record cut off anywhere inside loads as the state before it (or is refused when that state is empty). |
| Journal.ScanFindsPartial | swap-provider/plugin/json_db.py:287-300 | The backward brace scan stops exactly in front of the partial record. |
| Journal.MaybeLoadIncompleteData | swap-provider/plugin/json_db.py:287-300 | The loop finds that place, and none exactly if the braces are balanced. |
| Journal.LoadOfTornSeparator | swap-provider/plugin/json_db.py:287-300 | A text cut inside a separator cannot be loaded. |
| TornRecord.AppendsBehindPartialAreLost | swap-provider/plugin/json_db.py:403-413 | Whatever complete records are appended behind a torn one, the text loads as the state in front of the torn one (or is refused when that state is empty): they are lost. |
| TornRecord.CutValue | swap-provider/plugin/json_db.py:243-266 | Reading a value that was cut off in front of more records ends at the cut or at the end of the text, and a cut dictionary cannot be read at all; over every place of the cut, inside keys, strings, escapes and nested lists. |
| TornRecord.TornInsideIsUnparsable | swap-provider/plugin/json_db.py:243-266 | So a stored text with a torn record anywhere but at the end is never valid JSON. |
| Journal.LoadWithoutSnapshot | swap-provider/plugin/json_db.py:396-413 | Appends to an empty entry leave a text that cannot be loaded. |
| Journal.PartialIsBroken | swap-provider/plugin/json_db.py:243-266 | No strict part of a record parses, so recovery is always entered. |
| Journal.PrintNested | swap-provider/plugin/json_db.py:287-300 | In printed values without braces in strings no prefix closes more braces than it opens. |
| InvoiceJson.InvoiceSurvivesRestart | swap-provider/plugin/invoices.py:275-285 | A well-formed invoice that is written as JSON text, loaded and rebuilt by the constructor is its stored form: everything but the pending requests, and as well formed. |
| InvoiceJson.InvoiceRoundTrip | swap-provider/plugin/invoices.py:203-231 | The constructor inverts to_json, except that an empty associated hash becomes none. |
| InvoiceJson.HtlcsRoundTrip | swap-provider/plugin/invoices.py:138-151 | The set rebuilt from the list holds the same HTLCs, as no two of them are equal. |
| InvoiceJson.StoredPrintsTheSame | swap-provider/plugin/invoices.py:127-136 | Pending requests do not show in the text. |
| Json.LoadsOfPrint | swap-provider/plugin/json_db.py:353-362 | json.loads inverts the compact json.dumps, for values of any nesting, with any characters in strings and keys. |
| JsonString.ReadStringOfQuoted | swap-provider/plugin/json_db.py:353-362 | A string read back from its quoted form is the same, through short escapes, four-digit escapes and pairs of surrogates. |
| JsonString.EscapedIsAscii | swap-provider/plugin/json_db.py:353-362 | What is written is printable ASCII, whatever is in the string. |
| Json.PrintIsInjective | swap-provider/plugin/json_db.py:137-174 | Comparing texts is comparing values, so an assignment that is skipped changes nothing. |
| JsonPatch.PatchRoundTrip | swap-provider/plugin/json_db.py:310-312 | A patch record survives being written and read. |
| JsonPatch.PointerRoundTrip | swap-provider/plugin/json_db.py:88-95 | A key path survives as a JSON pointer, for keys without slash and tilde. |
| JsonPatch.ReplayAppend | swap-provider/plugin/json_db.py:243-266 | Replaying a concatenation is replaying one part after the other. |
| JsonTree.EditAtNode | swap-provider/plugin/json_db.py:88-95 | A record at a path does to the tree what the edit does to the node there. |
| JsonTree.NearWithNode | swap-provider/plugin/json_db.py:98-119 | Trees that agree outside some paths still do after the same replacement in both. |
| JsonTree.NearIsEqual | swap-provider/plugin/json_db.py:98-119 | Trees that agree outside no path are equal. |
| JsonTree.EditPrintable | swap-provider/plugin/json_db.py:137-174 | Records keep the tree printable. |
| JsonTree.RemoveFirstIsRemoved | swap-provider/plugin/json_db.py:195-215 | Removing the first equal item is removing at its index. |
| ProviderStore.Store.UpdateInvoice | swap-provider/plugin/cln_lightning.py:169-173 | On the journaled store: popping a live invoice that was changed in place, setting it again and writing takes a store that stands for the live, tracked and durable images of a state to one that stands for those after update_invoice. |
| ProviderStore.Store.Write | swap-provider/plugin/json_db.py:396-413 | A write, which consolidates or appends, takes the durable text to what the run model says: the dump of the live image, or the tracked one. |
| ProviderStore.Store.SetAttribute | swap-provider/plugin/json_db.py:98-119 | Assigning an attribute of a stored swap changes the live and the recorded document as the run model changes the live and the tracked image. |
| ProviderStore.Store.AddSwap | swap-provider/plugin/submarine_swaps.py:457-522 | Storing a new swap changes the live and the recorded document as the run model does. |
| ProviderStore.Store.PopSwap | swap-provider/plugin/submarine_swaps.py:250-269 | Dropping a swap changes both documents as the run model does. |
| ProviderStore.Store.AddInvoice | swap-provider/plugin/cln_lightning.py:346-349 | Saving an invoice that is new or was popped changes both documents as the run model does. |
| ProviderStore.Store.PopInvoice | swap-provider/plugin/cln_lightning.py:351-360 | Deleting an invoice changes both documents as the run model does, and gives back its stored form. |
| ProviderStore.Store.Touch | swap-provider/plugin/invoices.py:263-273 | A method call on a live invoice changes the live document only. |
| ProviderStore.Store.SetPreimage | swap-provider/plugin/cln_lightning.py:261-266 | Storing a preimage changes both documents as the run model does. |
| ProviderStore.Store.PopPreimage | swap-provider/plugin/cln_lightning.py:268-277 | Deleting a payment's preimage changes both documents as the run model does, and nothing without one. |
| ProviderSaves.SaveHoldInvoice | swap-provider/plugin/cln_lightning.py:346-349 | Saving a new invoice, or one that is taken out, changed and stored again, takes the store from the images of a state to those after the save. |
| ProviderSaves.DropHoldInvoice | swap-provider/plugin/cln_lightning.py:351-360 | Deleting an invoice without a write does so too, and nothing when there is none. |
| ProviderSaves.HtlcAccepted | swap-provider/plugin/cln_lightning.py:150-229 | An HTLC, new or replayed, takes the store to the images after the HTLC step of the run model: saved exactly if the invoice changed, and otherwise in the live tree only. |
| ProviderSaves.CheckInvoiceExpiry | swap-provider/plugin/cln_lightning.py:93-113 | The expiry check takes the store to the images after that step, also where it raises. |
| ProviderSaves.CallbackTurn | swap-provider/plugin/cln_lightning.py:115-148 | A turn of the callback handler takes the store to the images after the turn: settling and saving the prepay invoice, the funding txid, and a failed swap, with whatever its two writes did. |
| ProviderSaves.CreateNormalSwap | swap-provider/plugin/submarine_swaps.py:432-497 | Creating a swap takes the store through the images after each of its saves, where every write may consolidate or not. |
| ProviderSaves.MixedSaves | swap-provider/plugin/submarine_swaps.py:432-497 | One flag for all the writes of a creation loses nothing: once one has consolidated, what the others do makes no difference. |
| ProviderSaves.FailSwap | swap-provider/plugin/submarine_swaps.py:250-269 | Failing a swap takes the store to the images after it. |
| ProviderSaves.FinishNormalSwap | swap-provider/plugin/submarine_swaps.py:271-285 | Settling and removing a swap takes the store to the images after it: the live invoice, the two invoices, the preimage and the swap are gone from the text, or only the live invoice changed when settling raised. |
| ProviderSaves.RecordOutput | swap-provider/plugin/submarine_swaps.py:320-333 | Funding and spending transaction of the found output are recorded attributes of the swap. |
| ProviderSaves.ClaimSwap | swap-provider/plugin/submarine_swaps.py:297-407 | Every branch of _claim_swap takes the store from the images of a state to those after the claim step of the run model. |
| ProviderSaves.ReachableInStep | swap-provider/plugin/submarine_swaps.py:124-155 | In every reachable state the live and the recorded tree have the same swaps, preimages and invoice keys, and a new request finds neither its preimage nor its swap, so these methods apply there. |
| ProviderStore.CrashLoads | swap-provider/plugin/json_db.py:243-266 | After a crash the text loads as a document in which exactly the durable invoices, swaps and preimages stand under their hashes, and each invoice is rebuilt as it was stored. |
| ProviderDoc.LoadedImage | swap-provider/plugin/invoices.py:203-231 | Every key of the invoice section is the hexadecimal form of a hash of the image, and its value is rebuilt to that invoice. |
| ProviderDoc.AssignedIs | swap-provider/plugin/json_db.py:98-119 | An assignment to one of the attributes a swap changes is never skipped by Python's equality unless nothing changes. |
| ProviderDoc.SectionWithout | swap-provider/plugin/json_db.py:183-192 | Removing a key from a section removes exactly that hash from the map it stands for. |
| LockScript.SpendsIffClaimOrRefund | swap-provider/plugin/submarine_swaps.py:57-74 | For every two-item witness the built script succeeds if and only if the item is 32 bytes, hashes to the lock and the claim key signed, or it is not 32 bytes, CHECKLOCKTIMEVERIFY passes and the refund key signed. |
| LockScript.ProviderClaimSpends | swap-provider/plugin/submarine_swaps.py:705-743 | The claim witness of sign_tx spends. |
| LockScript.ProviderRefundSpends | swap-provider/plugin/submarine_swaps.py:705-743 | The refund witness of sign_tx spends, with the locktime it sets. |
| LockScript.OnlyClaimsBeforeLocktime | swap-provider/plugin/submarine_swaps.py:57-74 | While the transaction locktime is below the swap's, only the hash branch spends. |
| LockScript.LockMatchesTemplate | swap-provider/plugin/transaction.py:658-687 | The script built from the template matches the template when read back. |
| LockScript.DecodeOfBuild | swap-provider/plugin/bitcoin.py:296-314 | The interpreter decodes a built script into the instructions it was built from. |
| Script.ScriptNumRoundTrip | swap-provider/plugin/bitcoin.py:198-219 | Numbers survive the minimal signed little-endian form. |
| Script.ScriptNumToBytes | swap-provider/plugin/bitcoin.py:198-219 | The loop produces that form. |
| Script.ConstructScript | swap-provider/plugin/bitcoin.py:296-314 | The loop fills the template's slots by position and concatenates the items, or fails as an unfillable item does. |
| Script.GetOpOfPush | swap-provider/plugin/bitcoin.py:253-269 | A push read back gives its data, wherever it stands; the byte 00 reads as an empty push. |
| Script.GetOpsOfBuild | swap-provider/plugin/transaction.py:558-582 | Reading a built script gives one entry per item, with the offsets. |
| Script.ScriptGetOp | swap-provider/plugin/transaction.py:558-582 | The reader's loop produces those entries. |
| Script.ReadOp | swap-provider/plugin/transaction.py:558-582 | One turn of the reader's loop takes off one entry at any position, with the error cases of the source. |
| Fees.ReverseAdjunction | swap-provider/plugin/submarine_swaps.py:645-703 | For a provider paying on chain: sending s yields at least r exactly if s is at least the quoted amount for r. |
| Fees.ForwardAdjunction | swap-provider/plugin/submarine_swaps.py:645-703 | For a client paying on chain: sending s yields at least r exactly if s is at least the quoted amount for r. |
| Fees.ReversePays | swap-provider/plugin/submarine_swaps.py:655-665 | What is received on chain for s is at least r exactly if num * s <= 100 * den * (s - lockupFee - r). |
| Fees.ForwardPays | swap-provider/plugin/submarine_swaps.py:666-671 | What is received on Lightning for s is at least r exactly if num * r <= 100 * den * (s - normalFee - r). |
| Fees.RecvExactlyWhen | swap-provider/plugin/submarine_swaps.py:645-673 | _get_recv_amount answers x exactly if the amount on Lightning is within the range, x is not below the dust limit on chain, and x is the most that the amount pays for. |
| Fees.RecvQuotedExactlyWhen | swap-provider/plugin/submarine_swaps.py:645-673 | When it answers at all, in terms of range, dust limit and whole numbers. |
| Fees.SendExactlyWhen | swap-provider/plugin/submarine_swaps.py:675-703 | _get_send_amount answers x exactly if the amount on Lightning is within the range and x is the least that pays for the requested amount, which is not zero. |
| Fees.SendQuotedExactlyWhen | swap-provider/plugin/submarine_swaps.py:675-703 | When it answers at all. |
| Fees.ReverseSendIsLeastAndExact | swap-provider/plugin/submarine_swaps.py:675-703 | For a provider paying on chain, the quote yields r exactly, and nothing less yields r. |
| Fees.ForwardSendIsLeastAndExact | swap-provider/plugin/submarine_swaps.py:675-703 | For a client paying on chain, the quote yields r exactly, and nothing less yields r. |
| Fees.QuoteThenPay | swap-provider/plugin/submarine_swaps.py:645-703 | With range and dust checks: paying a quoted amount yields what was asked for, except an on-chain amount below dust, which is quoted and then refused. |
| Ripemd.RIPEMD160.Digest | swap-provider/plugin/ripemd.py:44-67 | The digest is the hash of everything fed in so far, whatever was asked before, as 20 bytes with the least significant byte of each word first; asking changes nothing later. |
| Ripemd.HashIs | swap-provider/plugin/ripemd.py:378-385 | The digest of a message, from its padded form (one 0x80 byte, zeros, the length in bits in 8 bytes) and the chaining values from block to block: 20 bytes, each word with its least significant byte first. |
| Ripemd.PackedBytes | swap-provider/plugin/ripemd.py:385-385 | Byte 4 * i + j of the packed words is the j-th base-256 digit of word i, least significant first. |
| Ripemd.InitialBytes | swap-provider/plugin/ripemd.py:96-107 | The words in front of the first block, as bytes: 01 23 45 67 and so on. |
| Ripemd.PaddedIsPadded | swap-provider/plugin/ripemd.py:378-384 | The padded message is the message, one 0x80 byte, zeros, and the bit length, with no block more than it takes. |
| Ripemd.RIPEMD160.Update | swap-provider/plugin/ripemd.py:44-67 | An update appends its argument to what was fed. |
| Ripemd.RIPEMD160.constructor | swap-provider/plugin/ripemd.py:44-67 | A new object has been fed its argument. |
| Ripemd.RMDContext.Update | swap-provider/plugin/ripemd.py:355-376 | Buffer and chaining state stay those of everything fed in, for every split of it into calls. |
| Ripemd.RMDContext.Final | swap-provider/plugin/ripemd.py:378-385 | Pads and returns the hash of everything fed in, and fails exactly from 2^64 bits on. |
| Ripemd.RMDContext.Copy | swap-provider/plugin/ripemd.py:96-107 | A copy shares no array with its original. |
| Ripemd.RMDContext.Fill | swap-provider/plugin/ripemd.py:355-376 | Filling the buffer keeps what is in front. |
| Ripemd.RMDContext.TakeBlocks | swap-provider/plugin/ripemd.py:355-376 | Input that completes the buffer is folded behind it, and what remains of it is the new tail. |
| Ripemd.RMDContext.TransformBlocks | swap-provider/plugin/ripemd.py:355-376 | The block loop folds the complete blocks and stops less than a block before the end. |
| Ripemd.PaddedIs | swap-provider/plugin/ripemd.py:378-385 | What is fed last completes the padded message (sections 3.1 and 3.2 of RFC 1320), at every length. |
| Ripemd.FoldAppend | swap-provider/plugin/ripemd.py:355-376 | Folding can be resumed at block boundaries. |
| Bech32.SingleErrorIsDetected | swap-provider/plugin/segwit_addr.py:63-71 | Changing one data symbol of a valid string of any length never verifies under the same encoding. |
| Bech32.BurstIsDetected | swap-provider/plugin/segwit_addr.py:63-71 | Changing any symbols within six neighbours of a valid string never verifies under the same encoding. |
| Bech32.ChecksumVerifies | swap-provider/plugin/segwit_addr.py:74-79 | A created checksum verifies as the encoding it was made for. |
| Bech32.ChecksumIsUnique | swap-provider/plugin/segwit_addr.py:63-79 | No six symbols other than the created checksum verify as that encoding. |
| Bech32.BurstChangesResidue | swap-provider/plugin/segwit_addr.py:46-55 | Two inputs that differ within six neighbours end in different registers. |
| Bech32.ResidueLinear | swap-provider/plugin/segwit_addr.py:46-55 | The register is linear over GF(2) in its start and its input. |
| Bech32.StepLinear | swap-provider/plugin/segwit_addr.py:46-55 | One step of the register is linear over GF(2). |
| Bech32.SixNeverCancel | swap-provider/plugin/segwit_addr.py:46-55 | Six symbols never cancel a short register. |
| Bech32.Polymod | swap-provider/plugin/segwit_addr.py:46-55 | The loops of bech32_polymod compute that register. |
| Bech32.FeedBack | swap-provider/plugin/segwit_addr.py:46-55 | The inner loop adds the generators selected by the top bits. |
| Bech32Hrp.HrpErrorIsDetected | swap-provider/plugin/segwit_addr.py:58-71 | Changing one printable character of the human-readable part never verifies under the same encoding, for parts as short as in every string of at most 90 characters. |
| Bech32Hrp.SameCheckExactlyWhen | swap-provider/plugin/segwit_addr.py:58-60 | For a part of any length, the exact condition under which such a change leaves the checksum as it was. |
| Bech32Text.AcceptedExactlyWhen | swap-provider/plugin/segwit_addr.py:88-108 | bech32_decode accepts exactly the strings of one case, of at most 90 characters unless that is ignored, that are in lower case the encoding of something. |
| Bech32Text.DecodeOfEncode | swap-provider/plugin/segwit_addr.py:82-108 | bech32_decode inverts bech32_encode for every lowercase printable human-readable part and both encodings, and refuses exactly the strings that are too long. |
| Bech32Text.EncodeOfDecode | swap-provider/plugin/segwit_addr.py:82-108 | Every accepted string is, in lower case, the encoding of what was read. |
| ConvertBits.ThereAndBack | swap-provider/plugin/segwit_addr.py:111-131 | What is regrouped with padding into smaller groups comes back without padding; for bytes, through five-bit symbols. |
| ConvertBits.BackAndThere | swap-provider/plugin/segwit_addr.py:111-131 | What is accepted without padding is exactly the padded form of its result. |
| ConvertBits.ConvertBits | swap-provider/plugin/segwit_addr.py:111-131 | The accumulator loops regroup the bit string, refuse values out of range, and refuse leftover bits exactly as the specification by bits does. |
| BaseCodec.DecodeOfEncode | swap-provider/plugin/bitcoin.py:513-562 | Bases 58 and 43: decoding inverts encoding, and as many zero digits lead as zero bytes. |
| BaseCodec.EncodeOfDecode | swap-provider/plugin/bitcoin.py:513-562 | Encoding inverts decoding on all alphabet strings, and nothing else is decoded. |
| BaseCodec.BaseEncode | swap-provider/plugin/bitcoin.py:513-533 | The digit loop produces the digits of the number the bytes stand for, behind one zero digit for each leading zero byte. |
| BaseCodec.BaseDecode | swap-provider/plugin/bitcoin.py:536-562 | The loop over the text produces the bytes of the number the digits stand for, behind one zero byte for each leading zero digit, and fails exactly on foreign characters. |
| BaseCodec.ByteLength | swap-provider/plugin/bitcoin.py:536-562 | The bit length rounded up to bytes is the number of bytes needed. |
| Taproot.PathsLeadToRoot | swap-provider/plugin/bitcoin.py:800-811 | Every leaf's path folds with the sorted branch hash to the returned root, and is no longer than the tree is deep. |
| Taproot.HelperKeepsOrder | swap-provider/plugin/bitcoin.py:800-811 | Leaves come out from left to right. |
| Taproot.ControlBlockOpens | swap-provider/plugin/bitcoin.py:825-838 | A control block for any leaf opens, by the rules of BIP-341, to that leaf, internal key, parity and root. |
| Taproot.FlattenOfMap | swap-provider/plugin/descriptor.py:770-780 | The descriptor's flattening lists the leaves in the same order. |
| Taproot.LessIsTotal | swap-provider/plugin/bitcoin.py:800-811 | The branch order is total, so both children of a branch hash to the same value from either side. |
| Descriptor.ParseOfPrint | swap-provider/plugin/descriptor.py:918-1006 | Parsing the printed text of every printable descriptor, nested scripts, multisigs and trees of any shape within the depth limit, gives the descriptor back. |
| Descriptor.ParseTreeOfPrint | swap-provider/plugin/descriptor.py:986-1000 | The same for a tree in front of any continuation. |
| Descriptor.ParseWithChecksumOfPrint | swap-provider/plugin/descriptor.py:1009-1026 | The same with the checksum appended, and any other checksum is refused. |
| Descriptor.ParsedIsPrintable | swap-provider/plugin/descriptor.py:918-1006 | Whatever the parser returns is printable. |
| Descriptor.ParsePrintParse | swap-provider/plugin/descriptor.py:918-1006 | Parsing, printing and parsing again changes nothing, for every text that parses. |
| Descriptor.SortedInOrder | swap-provider/plugin/descriptor.py:595-622 | The key list of a sorted multisig is in order. |
| Descriptor.SortedIsPermutation | swap-provider/plugin/descriptor.py:595-622 | The key list of a sorted multisig holds each key as often as it was given. |
| Descriptor.LeafEnd | swap-provider/plugin/descriptor.py:861-881 | _get_expr takes exactly a printed leaf. |
| Descriptor.GetExpr | swap-provider/plugin/descriptor.py:861-881 | The scanning loop splits the text where the nesting first closes. |
| TxCodec.DeserializeOfSerialize | swap-provider/plugin/transaction.py:837-985 | Deserializing the network form gives version, inputs, outputs, witness stacks and locktime back and consumes every byte, with the witnesses dropped if all are empty. |
| TxCodec.DroppedWitnessesAreEmpty | swap-provider/plugin/transaction.py:954-985 | Every witness that the network form drops held no elements. |
| TxCodec.MissingWitnessIsRefused | swap-provider/plugin/transaction.py:870-891 | A missing witness beside a present one cannot be serialized. |
| TxCodec.WitnessElementsOf | swap-provider/plugin/transaction.py:422-428 | Reading a constructed witness gives its stack. |
| TxCodec.ParseInputOf | swap-provider/plugin/transaction.py:734-740 | An input reads back from its bytes wherever they stand. |
| TxCodec.ParseOutputOf | swap-provider/plugin/transaction.py:749-756 | An output reads back from its bytes wherever they stand. |
| TxStream.Transaction.Deserialize | swap-provider/plugin/transaction.py:837-867 | The method on the transaction object does what the codec function does; it exposes the inputs before the locktime and the end of the text are checked, and a second call does nothing. |
| TxStream.BCDataStream.ReadBytes | swap-provider/plugin/transaction.py:475-487 | Moves the cursor behind what it returns, or fails and leaves it. |
| TxStream.BCDataStream.ReadNum | swap-provider/plugin/transaction.py:545-551 | Reads a little-endian number. |
| TxStream.BCDataStream.ReadCompactSize | swap-provider/plugin/transaction.py:514-526 | Reads a compact size in each of its four forms. |
| TxStream.ParseInputsFrom | swap-provider/plugin/transaction.py:837-867 | The loop reads the inputs at the cursor. |
| TxStream.ParseOutputsFrom | swap-provider/plugin/transaction.py:837-867 | The loop reads the outputs at the cursor. |
| TxStream.ParseWitnessesFrom | swap-provider/plugin/transaction.py:743-746 | The loop attaches the witnesses at the cursor. |
| LnAmount.UnshortenOfShorten | swap-provider/plugin/lnaddr.py:29-70 | unshorten_amount inverts shorten_amount. |
| LnAmount.ShortenIsShortest | swap-provider/plugin/lnaddr.py:29-42 | No text for the same amount is shorter. |
| LnAmount.Shorten | swap-provider/plugin/lnaddr.py:29-42 | The loop over the units ends with the largest unit in which the amount is a whole number. |
| Lnaddr.DecodeOfEncode | swap-provider/plugin/lnaddr.py:153-243 | lndecode reads back the timestamp and the p, s, d, x, c, 9 and r fields in order exactly if the timestamp takes its 35 bits and no description is cut off inside a character; in the second case it raises, and a shorter timestamp is never read back. |
| Lnaddr.DescriptionReadBack | swap-provider/plugin/lnaddr.py:205-207 | A description comes back exactly if its UTF-8 form has at most 639 bytes, and can be read at all exactly if it has, or the first byte cut off begins a character; then what comes back is the beginning of it. |
| Lnaddr.CutInsideIsRefused | swap-provider/plugin/lnaddr.py:489-490 | 638 letters and one accented letter: written without an error, and refused by lndecode. |
| Lnaddr.DecodeTags | swap-provider/plugin/lnaddr.py:421-532 | The fields are read back in order behind any state reached so far, or an unreadable description raises. |
| Lnaddr.DecodeLoop | swap-provider/plugin/lnaddr.py:421-532 | The field loop, with its exceptions; it ends because each turn shortens the buffer. |
| Utf8.DecodeOfEncode | swap-provider/plugin/lnaddr.py:489-490 | Strict decoding inverts encoding, in front of whatever follows. |
| Utf8.EncodeOfDecode | swap-provider/plugin/lnaddr.py:489-490 | And the converse: no other bytes decode to that text. |
| Utf8.DecodeOfCut | swap-provider/plugin/lnaddr.py:205-207 | Encoded text cut after n bytes decodes exactly if byte n begins a character, to the characters in front. |
| Lnaddr.ShortDateIsMisread | swap-provider/plugin/lnaddr.py:115-130 | A shorter timestamp swallows values of the next field. |
| Lnaddr.Buffer.PullTagged | swap-provider/plugin/lnaddr.py:140-150 | Takes one field off the front of the buffer, or fails and leaves it. |
| Lnaddr.PullOfTagged | swap-provider/plugin/lnaddr.py:106-150 | Takes off exactly a field that was put in front. |
| Lnaddr.HopsOfRoute | swap-provider/plugin/lnaddr.py:153-243 | A routing hint reads back hop by hop. |
| Lnaddr.IntToData5Loop | swap-provider/plugin/lnaddr.py:115-130 | The loop writes the digits of a number, most significant first. |
| Lnaddr.IntFromData5 | swap-provider/plugin/lnaddr.py:133-137 | The loop computes the number the five-bit digits stand for. |
| Lnaddr.TagCodes | swap-provider/plugin/lnaddr.py:153-243 | The numeric tags are the places of the tag characters in the charset. |

## Left out

- I/O: Nostr, the Lightning node's and Bitcoin Core's RPC, configuration, logging, and `BaseInvoice` formatting. What they return is a parameter of the operation that asks; exceptions from RPC and database writes inside a step are not modelled.
- Threads: each locked body is one step. The monitor of several swaps is any interleaving of such steps.
- Liveness: expiry and prepay waiting are only proved safe, since the code gets stuck in the cases named above.
- Elliptic curves, signing, sighash preimages, transaction size estimation, PSBT and BIP-32. The rounds of sha256 and RIPEMD-160 are a function parameter.
- The amounts a backend reports for outputs that are already spent: two conversions in the source disagree, so no amount is derived from them.
- The state of an HTLC is what the provider recorded. What the Lightning node did with an answer that was not saved before a crash is only tracked as "preimage handed out".
- The order in which Python iterates over a set of HTLCs is the order of the list that models it. Hash collisions of unequal HTLCs are not modelled.
- The live swaps are values of their section, replaced on every attribute write; the live invoices and HTLCs are objects.
- In the JSON document of the database a swap has no private key and no addresses, and its lock is what its redeem script holds. Other sections of the document are not looked at.
- Fees: Decimal's rounding to 28 digits; percentages are exact rationals.
- JSON: floats, strings with lone surrogates, the indented form, the fallback for Python literals, and `put`, `get_dict` and `get_stored_item`. Writing through an object that was already taken out of the tree.
- Descriptors: keys are opaque strings without the characters the syntax uses; other spellings of a number that Python's `int` accepts.
- Bech32: case folding of characters outside ASCII.
- Payment requests: the fields t and f are kept as read, n is not written, text with lone surrogates (which Python refuses to encode) does not occur, and the signature is not looked at.
- LockMatchesTemplate: for locktimes that are pushed as data; -1 and 1 to 16 become opcodes, which the template's slot does not match.
- hex_to_bytes: text with spaces, which `bytes.fromhex` skips.
- HrpErrorIsDetected: for human-readable parts of at most 83 characters, which is all that fits in 90; lndecode ignores that limit, and for longer parts SameCheckExactlyWhen gives the exact condition.
