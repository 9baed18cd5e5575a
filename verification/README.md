# Settlement engine: a model and its proofs

A Dafny model of the parts of the settlement engine that decide whether money moves at most
once, and proofs about every input, every interleaving and every run of them.

The parts, by module:

- **Settlement protocol.** `Intent` (the state machine and its compare-and-swap store), `Journal`,
  `Settlement` (relayer workers, listeners, recon engines, the API and operators as one transition
  system: each call on the store, the journal or the sender is one atomic step, every actor holds a
  possibly stale copy of an intent and may stop anywhere, and jobs may be delivered in any order any
  number of times), `SettlementInvariant` and `SettlementSafety` (what every interleaving keeps),
  `SettlementFailed` (the holds of payments that ended), `SettlementSequencers` (the same with the
  accounts' numbers), `SettlementSteps` (stretches of a run). `IntentHistory` (what a payment's history may
  hold), `SettlementBalances` (the journal's balances are what the payments owe) and `SettlementProgress`
  (what an undisturbed delivery comes to) speak of the same runs in the fields of payments and entries;
  `IntentStore` is about the store alone (which write wins).
  `Relayer` is the worker's own code over the real store, journal and sequencer, and `RelayerDeliveries` what
  its deliveries make of a payment; `Listener` and `Recon` are the listener's and the recon engine's. `Relayer`
  and `ReconSteps` show that what this code calls, in the order it calls it, is a stretch of protocol
  steps, so the safety results hold of it. `ListenerVerdicts`, `ReconTerms` and `ReconSweeps` say what a look,
  a transfer and a sweep come to, in what was seen and what is on record. `ReconSafety` and `ReconRuns` are
  about undisturbed recon runs: one transfer settles a payment, the others are reported as paid twice, and
  windows tile.
- **Ledger.** `Ledger`, `LedgerHash`, `Journal`, `JournalRows`, `Balances`, `PaymentRef`: double entry, the
  hash chain, what is taken and refused, the projection and its conservation, and two injective encodings.
- **Payout runs.** `Merkle` and `MerkleProofs`; `PayoutMessage` and `SolanaWire` (the off-chain
  half); `PayoutProgram` (the on-chain program over raw account bytes); `PayoutAgreement` (the two
  halves agree byte for byte), `PayoutLifetime` (every life of a run), `PayoutVault` (where the money
  is), `PayoutOutcomes` (exactly when each call goes through), `PayoutCommitment` (nothing but the committed
  list is paid), `PayoutSize`; `Bulk` and `Intake` (packing and tracing back).
- **TON.** `Cells`, `CellBuilder`, `CellReader`, `CellOrder`, `Boc` and `BocWriter` (cells and bags of
  cells, section 3.1.4 of the TVM paper and section 5.3 of the TON Blockchain paper); `TonMessage`,
  `TonReader` and `TonPayloads` (the batch request and its reader, jetton messages as in TEP-74); `TonTrace`,
  `TonLookup`, `TonNetwork`, `TonRuns` and `Finality` (following a payment through a network that only
  grows), `TonBalances`, `TonOutcomes` and `TonSettles` (what each outcome says of the jettons); `Crc16`,
  `CrcDivision`, `FriendlyAddress` and `AddressText` (the address checksum as a division, the errors it never
  misses, and the written forms); `KnownForms` (examples that fix what round trips leave open).
- **Small shared objects.** `Counter` and `CounterGaps` (nonces: none twice, none skipped), `Idempotency`,
  `IdempotencyReclaim`, `IdempotencyRequests` and `IdempotencyLeases` (one answer per key, to one request).

Go strings and byte slices are sequences of bytes. SHA-256 is a parameter of everything that hashes.
Where a result needs it to be collision-free, the result says on which finitely many inputs: no
function into 32 bytes is injective on all of them. A checksum over a bag of cells is a parameter too.

Code that changes things step by step is a method or a class with the source's own fields, proved
against a function of the old state; the laws are lemmas about those functions.

Where the code and its own comments part, the model follows the code:

- `MaxItems` is described as an upper bound for one batch. It is one exactly when some rule counts items
  (`Bulk.MaxItemsBounds`); otherwise it answers 0 and every plan has a longer batch.
- The idempotency handler is described as letting one answer per key leave. For each record of a key that
  holds exactly when no handler left over from an earlier record of it is on an attempt that takeovers can
  reach within the record's life (`IdempotencyReclaim.ReclaimHasOneAnswer`).
- The vault is described as the run's one account. pay_batch and clawback take whatever account of the
  run they are handed, so the vault holds total minus paid, and a clawback returns it, exactly when the
  calls name it (`PayoutVault.VaultIsTheRest`, `PayoutVault.ClawbackReturnsTheRest`); a clawback that
  names another one ends the run and leaves the vault where it is (`PayoutVault.StrandedForever`). Nor do
  they compare the token program: a batch is booked whatever the one it names did (`PayoutVault.IdleBatch`).
- Voiding before failing is described as leaving no hold pending on a failed payment. Over all runs it does
  exactly when the workers share one sequencer, as those of one pool do, or their sender needs no numbers
  (`SettlementSequencers.OneSequencer`). `relayer.New` gives each worker a counter of its own, and workers
  made one by one over one store, journal and notebook of sends can leave such a hold
  (`SettlementSequencers.OvertakenIsLeftPending`).
- Aligning the counter is safe exactly above every used number (`Counter.AlignRepeatsNothing`).
- `NewRun` takes up to 65,536 payouts; the program keeps the count in 16 bits, so 65,535 is the most
  a run can be opened for. `PayoutAgreement.MessageIsAccepted` is about those.
- Voiding while giving up passes over a hold that is already resolved, whoever resolved it, and fails
  the intent all the same; so the results about posts are about intents the listener settled.

## Model

| member | source | states |
|---|---|---|
| Ledger.ValidateLegs | backend/internal/ledger/ledger.go:186-211 | Legs are refused, as malformed or as unbalanced, exactly when there are fewer than two, one is nameless or zero, an account repeats, or they do not sum to zero |
| Ledger.Validate | backend/internal/ledger/ledger.go:147-184 | The rule for every kind of entry: which fields must be there, who may name a hold, who has legs |
| LedgerHash.AppendPreimage | backend/internal/ledger/hash.go:18-43 | Appending field by field gives the length-prefixed preimage |
| LedgerHash.PreimageInjective | backend/internal/ledger/hash.go:13-43 | Equal preimages mean the same link, the same position and the same hashed fields: field boundaries cannot blur |
| Journal.MemoryJournal.Append | backend/internal/ledger/journal.go:53-96 | The two indexes answer what a search of the rows would; the rows grow by one linked row, are left alone by a replay, or the entry is refused in the order the source checks |
| Journal.AppendKeepsWellFormed | backend/internal/ledger/journal.go:61-96 | One Append keeps: valid entries, unique ids, every post and void behind its hold, no hold resolved twice, an unbroken chain; and it only ever adds at the end |
| Journal.ReachableWellFormed | backend/internal/ledger/journal.go:61-96 | Every journal that any sequence of Append calls reaches is well formed, so it verifies |
| JournalRows.AppendSays | backend/internal/ledger/journal.go:53-96 | Of a well-formed journal, in the fields of entries and rows: a new entry is written exactly when it is attributed, shaped as its kind is and cancels out, its id is free, and, unless it is a hold, the hold of its payment in its asset is there and unresolved; each other answer is given exactly when its own condition holds |
| JournalRows.RowsSay | backend/internal/ledger/journal.go:61-96 | After any sequence of calls every row is an entry that was asked for, sound, under an id of its own; a post or a void stands behind the hold of its own payment and asset and is the only one to resolve it |
| Journal.Verify | backend/internal/ledger/journal.go:196-219 | Verification succeeds exactly when every row is chained, and otherwise names the first row that is not |
| Journal.LastHashPinsJournal | backend/internal/ledger/journal.go:196-219 | Two verifying journals with the same last hash have the same length and agree in every hashed field of every row, unless the hash collides on a row of each |
| Balances.Project | backend/internal/ledger/journal.go:155-194 | The fold gives each account the legs of its unresolved holds as pending and the legs of its posts as posted, has an entry for exactly the accounts some leg names, and never reads a missing hold |
| Balances.Conservation | backend/internal/ledger/journal.go:155-194 | After any sequence of Append calls the pending balances of an asset sum to zero over all accounts, and so do the posted ones |
| SettlementBalances.BalancesAreDues | backend/internal/ledger/journal.go:155-194 | Over every interleaving, for every account and asset: the posted balance is the sum of what the payments with a post take from or bring to that account, and the pending balance the same sum over the payments whose hold is unresolved |
| PaymentRef.Preimage | backend/internal/paymentref/ref.go:67-80 | The loop builds the domain and the six terms, each behind its length |
| PaymentRef.PreimageInjective | backend/internal/paymentref/ref.go:67-80 | No two different sets of terms share a preimage |
| PaymentRef.RefCommitsToTerms | backend/internal/paymentref/ref.go:62-65 | Two payments have the same ref exactly when their terms are the same, unless the hash collides on the two |
| Intent.FindRule | backend/internal/intent/state.go:117-149 | Searching the table finds the row of each listed edge and nothing for any other |
| Intent.NewIsSound | backend/internal/intent/intent.go:98-126 | A new intent starts a sound history and carries the ref of its own terms |
| IntentHistory.MovesWhen | backend/internal/intent/machine.go:52-116 | A request moves a payment exactly when the state asked for may be entered from there, by this actor and with this evidence, inside the signing window and on the hash on record; the moved payment holds that step and takes state and clock from it |
| IntentHistory.HistoriesAreTold | backend/internal/intent/state.go:117-139 | Over every run, every stored payment was opened on sound terms and stands where, when and on the hash its history says, each step of which was taken by one who may take it, with what it needs in hand, and in time |
| IntentHistory.SettledOnWhatWasSeen | backend/internal/intent/machine.go:100-116 | Over every run, whoever settled it, a settled payment is settled on the hash of its latest step to confirming, unless that was taken back |
| Intent.Record.Apply | backend/internal/intent/machine.go:38-116 | The in-place move, replay or refusal, with the refusals in the order the source checks them; a refusal leaves every field alone |
| Intent.AppliedKeepsSound | backend/internal/intent/machine.go:52-97 | Every accepted move extends the history along the table, steps the version by one, keeps the terms, keeps the hash fitting the state, and never leaves a terminal state |
| Intent.ReplayIsQuiet | backend/internal/intent/machine.go:41-58 | A request delivered a second time is accepted and changes nothing |
| Intent.OnlyTheClaimTouches | backend/internal/intent/state.go:117-139 | Only the relayer's move from authorized to settling leads out of the states in which nothing was ever sent |
| Intent.MemoryStore.Save | backend/internal/intent/store.go:98-115 | Compare and swap on the version, then the ref recomputed from the terms; refused writes change nothing |
| IntentStore.WinsWhen | backend/internal/intent/store.go:98-115 | A write wins exactly when it names the version stored, 0 for none, and carries the ref of its own terms; it then changes that one intent |
| IntentStore.StoredIsProper | backend/internal/intent/store.go:24-40 | After any writes of any callers, every stored intent is under its own id and its own ref, and every ref leads to a stored intent |
| IntentStore.OneWins | backend/internal/intent/store.go:24-40 | Of all writers that read the same version of an intent and step it by one, at most one wins, in whatever order all the writes arrive |
| Intent.MemoryStore.GetByRef | backend/internal/intent/store.go:70-79 | A ref leads to the stored intent it was saved under |
| Intent.MemoryStore.Advance | backend/internal/intent/store.go:117-139 | Read, apply, write back: the shelf changes exactly when the move is applied |
| SettlementInvariant.SwapMoves | backend/internal/intent/store.go:24-40 | A write that wins was made from the stored copy, and moves it one step along the table |
| SettlementInvariant.SwapKeeps | backend/internal/intent/store.go:98-115 | A winning write keeps the whole invariant, whatever stale copies other actors hold |
| SettlementInvariant.AppendKeeps | backend/internal/ledger/journal.go:61-96 | Booking an entry of a stored payment keeps the invariant for every actor |
| SettlementSafety.ClaimKeeps | backend/internal/relayer/relayer.go:328-333 | Winning the claim keeps the invariant: nobody else carried it, and nothing was sent before |
| SettlementSafety.RunKeeps | backend/internal/relayer/relayer.go:275-382 | Every interleaving of workers, listeners, recon engines, the API and operators, each stopping anywhere, keeps the invariant that ties local copies, store, journal and sends together |
| SettlementSafety.SettledMeansPaidOnce | backend/internal/listener/listener.go:141-235 | Over every interleaving, an intent the listener settled has its hold on the books, exactly one post that resolves it, for the full amount and on the intent's own hash, and no void |
| SettlementBalances.SettledIsBooked | backend/internal/listener/listener.go:186-192 | What those two rows are: a hold and its post under the payment's ref, the post under the hash it is settled on, each taking the amount from the payer's account and bringing it to the merchant's, in the payment's asset, and moving nothing else; it stands in the posted column and not in the pending one |
| SettlementSafety.SentAtMostOnce | backend/internal/relayer/relayer.go:285-382 | Over every interleaving and any redelivery, Send is called at most once per intent |
| SettlementSafety.SentBehindItsHold | backend/internal/relayer/relayer.go:334-344 | Whenever Send is called, that intent's hold for the full amount is already on the journal |
| SettlementBalances.SentIsCovered | backend/internal/relayer/relayer.go:334-344 | That hold moves exactly what the payment owes, account by account, and is booked under its ref |
| SettlementSafety.TerminalIsFinal | backend/internal/intent/state.go:51-59 | A terminal intent is never touched again, whatever is still in flight |
| SettlementSafety.CanceledIsNeverBroadcast | backend/internal/intent/state.go:117-139 | An intent that is canceled at any point of a run is never sent or replaced, before or after |
| SettlementFailed.VoidFrees | backend/internal/relayer/poison.go:82-92 | The void before a failure leaves the hold resolved exactly when the hold is on the books |
| SettlementFailed.FailedHoldIsFreed | backend/internal/relayer/poison.go:52-92 | A relayer that goes on to fail a payment whose hold was on the books when it asked for the void has that hold resolved, exactly once, in every continuation |
| SettlementFailed.EndedHolds | backend/internal/relayer/poison.go:52-54 | From every reached world of the protocol without the accounts' numbers, a payment that has ended is never left with a pending hold exactly when it has none now and, unless its hold is on the books already, nobody who won the claim is still about to book it |
| SettlementSequencers.RunIsSafe | backend/internal/relayer/relayer.go:310-382 | With the accounts' numbers in the protocol, deliveries that end anywhere, alignments and processes that die with their workers, every run keeps the invariant of all interleavings |
| SettlementSequencers.SenderIsAlone | backend/internal/relayer/replace.go:138-150 | With one sequencer, whoever has the number to send a payment again finds no claimant about to book its hold: nobody else has a number of that account, and every claimant has one |
| SettlementSequencers.FailedIsClosed | backend/internal/relayer/poison.go:52-92 | Over every run of workers that share one sequencer, or whose sender needs no numbers, a payment that the relayer failed has no pending hold, and from there on never gets one |
| SettlementSequencers.OvertakenIsLeftPending | backend/internal/relayer/replace.go:138-150 | Of two workers with a sequencer each, which is what workers made one by one have: the claimant is slow, its rescuer's send is refused on a number of its own, the payment fails with no hold to void, and the claimant then books one that nobody will resolve |
| SettlementSequencers.OneSequencer | backend/internal/relayer/poison.go:52-92 | In all runs every payment that the relayer failed keeps no pending hold exactly when the workers share one sequencer or their sender needs no numbers |
| SettlementProgress.DeliveryPays | backend/internal/relayer/relayer.go:328-361 | From every reachable state, an authorized payment that is delivered undisturbed is sent once behind one new row, its hold, exactly when the clock reads something and its ref is not zero, and ends confirming exactly when the sender then names a hash; no other payment is touched |
| SettlementProgress.GiveUpEnds | backend/internal/relayer/poison.go:52-103 | From every reachable state, giving up a settling payment undisturbed sends it to review unless nothing was sent; then it fails exactly when its void can be booked, is booked already or has nothing to free, and stays settling otherwise |
| Relayer.Worker.Advance | backend/internal/relayer/relayer.go:371-382 | The copy in hand, applied and written back: exactly the protocol's compare and swap |
| Relayer.Worker.Hold | backend/internal/relayer/relayer.go:334-337 | The hold is booked as the protocol's own step, before anything is sent |
| Relayer.Worker.Carry | backend/internal/relayer/relayer.go:328-361 | Claim, hold, send, confirm are the protocol's steps in that order; nothing is handed to the sender unless claim and hold went through; the notebook keeps how the send ended |
| Relayer.Worker.TakeNumber | backend/internal/relayer/relayer.go:314-326 | The account's next number, or the account left exactly as it was |
| Relayer.Worker.TakeGap | backend/internal/relayer/replace.go:138-150 | The gap's number first; the next one only when there is no gap and the send is not a clearing one |
| Relayer.Worker.Pay | backend/internal/relayer/relayer.go:299-361 | The number taken for a payment is given back, used up or kept as a gap, exactly as the send ended, and no other account's numbers move |
| Relayer.Worker.SendAgain | backend/internal/relayer/replace.go:89-136 | A replacement is sent once and confirmed on its hash; a clearing send pays nothing and goes to review |
| Relayer.Worker.Rescue | backend/internal/relayer/replace.go:33-136 | A stuck payment's delivery is the protocol's rescue steps, at most one replacement is sent, and the account's numbers end as the send did |
| Relayer.Worker.Process | backend/internal/relayer/relayer.go:275-369 | One delivery is exactly this stretch of protocol steps for the state it reads, hands over at most one send, and is only taken off the queue when the payment no longer waits for a relayer |
| Relayer.Worker.GiveUp | backend/internal/relayer/poison.go:37-103 | Giving up is exactly the protocol's steps: fail after voiding when the last send certainly did not leave, review otherwise |
| RelayerDeliveries.PayEnds | backend/internal/relayer/relayer.go:299-361 | From every reachable state, one delivery of an authorized payment claims it exactly when there is room and, where numbers are needed, the account's next one is to be had; sends it exactly when besides its hold can be booked; and leaves it as it was otherwise |
| RelayerDeliveries.RescueEnds | backend/internal/relayer/replace.go:40-136 | From every reachable state, one delivery of a stuck payment replaces it on the chain exactly when the policy speeds it up and sender, room, account, token and number are at hand; sends it to review exactly when the policy says so, there is nothing to replace it with, the slot to clear holds nothing back, or it was cleared; and leaves it as it was otherwise |
| SettlementSteps.RunGoesOn | backend/internal/relayer/relayer.go:275-284 | Steps taken from where a run stands are a longer run, so what holds of runs holds after them |
| Finality.VerdictsLast | backend/internal/finality/finality.go:150-176 | With the chain's marker required, a final or failed verdict is never changed by a later sighting at any age |
| Finality.DepthCounts | backend/internal/finality/finality.go:63-69 | The depth of what is in a block is the number of heights from its own to the head, both counted |
| Finality.JudgeSays | backend/internal/finality/finality.go:153-176 | Final and failed exactly when irreversible, which is in a block, under the marker where it is required and under enough heights, and executed or not; lost exactly when in no block for longer than a positive patience |
| Listener.Check | backend/internal/listener/listener.go:137-193 | One look: wait, hand back, send to review, or book the post and settle; errors leave the records as far as they got |
| ListenerVerdicts.CheckSays | backend/internal/listener/listener.go:141-193 | In what the watcher saw, for every store, books, policy and clock: to review exactly when what was seen is irreversible and failed or moved another amount or none, back to the relayer exactly when it is missing for too long, settled exactly when it is irreversible, succeeded and moved the amount and the post can be booked; waiting otherwise |
| ListenerVerdicts.CheckChanges | backend/internal/listener/listener.go:176-213 | Books and settlement change only on such a proof, by the payment's own post for its own amount; no other payment is touched |
| ReconSteps.CheckIsSteps | backend/internal/listener/listener.go:137-213 | A check does to store and books what three steps of one protocol actor do |
| ReconSteps.RunIsSteps | backend/internal/recon/engine.go:71-114 | A whole recon run, failed ones included, does to store and books what a stretch of steps of one protocol actor does |
| ReconSteps.ReconKeepsPaidOnce | backend/internal/recon/engine.go:71-263 | After recon runs at any point of any interleaving, whatever the listener counts as settled is still paid exactly once |
| Recon.Sort | backend/internal/recon/engine.go:96-103 | The same transfers, none before an earlier one |
| ReconTerms.FirstTransferSettles | backend/internal/recon/engine.go:96-112 | Of the correct transfers of a payment still live when a window's walk begins, a walk that succeeds settles it on the one with the least height and, among those, the least hash |
| Recon.Engine.Reconcile | backend/internal/recon/engine.go:173-263 | What one transfer does to store and books and which note it leaves, branch by branch |
| ReconTerms.StrangersAreFindings | backend/internal/recon/engine.go:178-201 | Whatever the state: a transfer without a ref, with a ref of no intent, or with the ref but another chain, token, payer or merchant, or of an intent nobody waits for, is a finding of that kind, exactly then, and store and books stay as they are |
| ReconTerms.BooksDecide | backend/internal/recon/engine.go:203-226 | A correct transfer of a settled payment changes nothing and is paid twice, a mismatch or a match exactly as the rows of the books say about its hash and its amount |
| ReconTerms.EvidenceGoes | backend/internal/recon/engine.go:265-277 | Bringing a hash to a stored intent: a settling one takes it, a confirming one stays as it is, any other has got away, which is no error |
| ReconTerms.TakingBackGoes | backend/internal/recon/engine.go:228-247 | Taking a hash back: a confirming intent goes back to settling, a settling one stays, an authorized one is not the listener's to move, any other has got away |
| Recon.Engine.SweepAll | backend/internal/recon/engine.go:116-167 | The open intents of the chain as listed when the sweep began: the confirming ones checked, lost races noted, an error ending it |
| ReconSweeps.SweepSpeaks | backend/internal/recon/engine.go:124-167 | A sweep that succeeds speaks of every listed payment of its chain, once and in order: requeued exactly when it is not confirming, looked at otherwise |
| ReconSweeps.EveryoneIsSpokenOf | backend/internal/recon/engine.go:124-167 | Of the open intents as the store lists them: exactly those of the chain that are authorized, settling or confirming are spoken of, each once |
| ReconSweeps.SweepSettles | backend/internal/recon/engine.go:135-143 | Whatever it meets on the way, a sweep that succeeds settles a live confirming payment whose transaction the watcher proves, on that transaction's hash |
| Recon.Engine.Run | backend/internal/recon/engine.go:71-114 | Sweep, fetch, walk in order, and the cursor moves only when all of it succeeded |
| ReconSweeps.ReportSays | backend/internal/recon/engine.go:77-114 | A run that goes through reports on the heights from behind the cursor to the newest final one: what its sweep said, and every transfer fetched, in order, all of them inside that window; the cursor ends there. A run that fails leaves the cursor alone |
| ReconSafety.ForeignTransfer | backend/internal/recon/engine.go:173-263 | A transfer of another payment, or of none, leaves this payment's intent, hold and post untouched |
| ReconSafety.TransferWhenLive | backend/internal/recon/engine.go:228-255 | The first correct transfer of a live payment settles it on that transfer's hash, or fails the run and leaves it live |
| ReconSafety.TransferWhenDone | backend/internal/recon/engine.go:204-226 | A correct transfer of a settled payment changes nothing: it matches the post exactly when it carries the settled hash, and is paid twice otherwise |
| ReconRuns.RunsAgree | backend/internal/recon/engine.go:71-263 | Over any sequence of undisturbed runs, the payment ends live or settled on one of its transfers, and all successful reports agree on which |
| ReconRuns.OnePost | backend/internal/recon/engine.go:204-226 | Settled means exactly one row resolves the hold: the payment's own post on that hash |
| ReconRuns.WindowsTile | backend/internal/recon/engine.go:84-113 | Successful windows cover every height behind the cursor once: no gap, no overlap, errors and repetitions included |
| ReconRuns.EachTransferOnce | backend/internal/recon/engine.go:104-112 | Each transfer of the payment behind the cursor is spoken of in exactly one successful report, exactly once |
| ReconRuns.OneSettlesOthersPaidTwice | backend/internal/recon/engine.go:204-255 | Of two correct transfers with different hashes at most one is ever matched as settled, in whatever reports, and the other is paid twice; the books end on one hash |
| ReconRuns.ExactlyOneSettles | backend/internal/recon/engine.go:96-112 | Once all transfers of one live payment were walked past, exactly one of them is matched as the one that settled it, every other is paid twice, and the payment is settled on that one |
| Merkle.Build | backend/internal/merkle/merkle.go:65-97 | All levels, each joined from the one below, over the list padded to the least power of two that holds it |
| Merkle.BlockProof | backend/internal/merkle/merkle.go:109-127 | The proof of an aligned block is the sibling of its ancestor on every level up; blocks that are too high or out of range are refused |
| Merkle.VerifyBlock | backend/internal/merkle/merkle.go:129-155 | Accepts exactly when the leaves are a full power of two and folding them and climbing the proof gives the root |
| MerkleProofs.BlockProofVerifies | backend/internal/merkle/merkle.go:109-155 | For every list, alignment and block in range, the proof opened for the block makes the verifier accept it |
| MerkleProofs.OnlyTheBlockVerifies | backend/internal/merkle/merkle.go:129-155 | With no collision among the joins performed, a block that verifies at an in-range position with a proof of the tree's length is the committed one, in order |
| MerkleProofs.HashKeepsJoinsApart | backend/internal/merkle/merkle.go:49-63 | For the tree's own node encoding, digests apart on the bytes means joins apart on the pairs |
| SolanaWire.AppendCompactU16 | backend/internal/chain/solanamsg.go:228-240 | Appends the variable-length number that the format's own parser reads back |
| KnownForms.CompactNumbers | backend/internal/chain/solanamsg.go:228-240 | The four numbers at which the length changes |
| PayoutOutcomes.RolesAre | backend/internal/chain/solanamsg.go:191-206 | By the header's rules the fee payer alone signs, run, vault and every token account to be paid are writable, and the two programs are not |
| KnownForms.ByteOrders | backend/internal/chain/solanamsg.go:210-216 | Low byte first on Solana, high byte first on TON |
| SolanaWire.MessageRoundTrip | backend/internal/chain/solanamsg.go:191-225 | A message of that layout parses back to the same header, keys, blockhash and instruction |
| PayoutMessage.NewRun | backend/internal/chain/solanamsg.go:60-121 | Refuses the first item that cannot be a leaf, and otherwise commits to the list in order, padded to a block |
| PayoutMessage.ListAccounts | backend/internal/chain/solanamsg.go:173-189 | The fixed accounts around the block's own, each once, and every item's place among them |
| PayoutMessage.PayBatchMessage | backend/internal/chain/solanamsg.go:139-226 | For every block in range the bytes parse as one pay_batch instruction with that block's accounts, amounts, refs and proof; anything else is refused |
| PayoutProgram.InitRun | contracts/solana/payout-run/src/lib.rs:126-242 | Every answer init_run gives, refusals in order, and the run account it writes |
| PayoutProgram.MarkLeaves | contracts/solana/payout-run/src/lib.rs:354-368 | In place: refused when any of the block's bits is up, otherwise exactly those bits go up and no other byte changes |
| PayoutProgram.FoldInPlace | contracts/solana/payout-run/src/lib.rs:332-339 | Folding the level inside its own array gives the digest above the eight leaves |
| PayoutProgram.RecomputeRoot | contracts/solana/payout-run/src/lib.rs:307-349 | The root rebuilt from the accounts, amounts and refs handed in, and the proof |
| PayoutProgram.PayMerchants | contracts/solana/payout-run/src/lib.rs:369-386 | The transfers in order, stopping at the first that is refused, and their checked sum |
| PayoutProgram.PayBatch | contracts/solana/payout-run/src/lib.rs:244-394 | Every answer pay_batch gives: refusals in order, and on success the bits up, the sum booked, the tokens moved and nothing else changed |
| PayoutProgram.DepthForLoop | contracts/solana/payout-run/src/lib.rs:496-505 | The loop finds the least depth, three at least, that holds the list |
| PayoutProgram.Clawback | contracts/solana/payout-run/src/lib.rs:396-486 | Every answer clawback gives, and the world after it |
| PayoutAgreement.DepthsAgree | contracts/solana/payout-run/src/lib.rs:496-505 | The program's depth is the height of the tree the off-chain half built |
| PayoutAgreement.RunHasRoot | backend/internal/chain/solanamsg.go:123-127 | Every run has a root, so the results that speak of it leave no run out |
| PayoutAgreement.RootsAgree | contracts/solana/payout-run/src/lib.rs:307-352 | Folding and climbing the off-chain block and proof gives the off-chain root |
| PayoutAgreement.MessageIsAccepted | contracts/solana/payout-run/src/lib.rs:252-352 | For every run of at most 65,535 payouts and every block, pay_batch reads from the built message exactly that block's accounts, amounts and refs, and its count, depth, proof-length and root checks pass |
| PayoutAgreement.MessageSettles | contracts/solana/payout-run/src/lib.rs:354-394 | So on a payable run the built message is refused, if at all, for its bits or its money alone |
| PayoutOutcomes.MessageGoes | contracts/solana/payout-run/src/lib.rs:252-394 | For a live run of the list, with its own vault and SPL Token named, the built message goes through exactly when it comes before the deadline, none of the block's leaves was paid, the vault holds the sum and is not frozen, every receiver can take all its items, and the paid total has room |
| PayoutVault.PayAllMoves | contracts/solana/payout-run/src/lib.rs:369-386 | A batch that SPL Token carried takes its sum from the vault it names, credits each listed account with exactly its own items, and changes nothing else |
| PayoutLifetime.OpensLive | contracts/solana/payout-run/src/lib.rs:224-241 | A successful init_run starts a live run: nothing paid, no bit up, the terms as given |
| PayoutOutcomes.OpensWhen | contracts/solana/payout-run/src/lib.rs:126-242 | With SPL Token named, init_run goes through exactly when the terms are whole, the payer signed before the deadline, run and vault are the derived addresses and new, and an account of the payer's in that mint can pay; it moves the total from there to the vault and nothing else |
| PayoutOutcomes.DeadlinesAreSigned | contracts/solana/payout-run/src/lib.rs:286 | The eight bytes of a deadline stand for the signed number they equal modulo 2^64 |
| PayoutVault.OpensFull | contracts/solana/payout-run/src/lib.rs:170-222 | One that names SPL Token starts with the whole total in the run's own vault |
| PayoutLifetime.StepKeepsLive | contracts/solana/payout-run/src/lib.rs:244-394 | Whatever the call, the accounts and the token program it names and its answer, the run's bits and its paid total tell the same history afterwards |
| PayoutLifetime.LifeKeepsLive | contracts/solana/payout-run/src/lib.rs:244-394 | Over every life of a run, with any accounts and any token programs named: each leaf paid at most once and only before the deadline, a block's bits all up or all down, a bit up exactly when its leaf was paid, and paid the sum of what was paid |
| PayoutVault.LifeAdds | contracts/solana/payout-run/src/lib.rs:244-394 | Over every life whose own batches name SPL Token, the vault stays the run's and vault plus paid is the total plus what was drawn on other accounts, sent to the vault or paid in by others: never less than the total |
| PayoutVault.VaultIsTheRest | contracts/solana/payout-run/src/lib.rs:369-394 | The vault holds total minus paid exactly when every batch that paid anything named the run's own vault and sent it nothing, and nobody else paid in |
| PayoutVault.ClawbackReturnsTheRest | contracts/solana/payout-run/src/lib.rs:396-486 | A clawback comes at the deadline or later and ends the run; it empties the vault into an account of the payer exactly when it names that vault, and returns exactly total minus paid exactly when, besides, every batch drew on that vault and nobody paid in |
| PayoutOutcomes.ClawsWhen | contracts/solana/payout-run/src/lib.rs:401-486 | Through its own vault a live run is clawed back exactly from the deadline on, for the payer on record, into an account of the payer's that can take what is left |
| PayoutOutcomes.ClawedIsClosed | contracts/solana/payout-run/src/lib.rs:271-276 | A run account marked as clawed back is neither paid from nor clawed back again |
| PayoutVault.StrayingBatch | contracts/solana/payout-run/src/lib.rs:369-394 | The account the money comes from is not compared either: every batch that goes through on the vault goes through just as well on any other account of the run that can carry it; the same leaves and the same sum are booked, and the vault keeps its tokens |
| PayoutVault.IdleBatch | contracts/solana/payout-run/src/lib.rs:369-394 | Nor is the token program: every batch that goes through does so as well when it names a program that answers and moves nothing; the same is booked and no token moves, so total minus paid is no longer what the vault holds |
| PayoutVault.StrandingClawback | contracts/solana/payout-run/src/lib.rs:438-472 | The vault named is not compared: from every live run at its deadline, once the run owns another, empty token account, a clawback naming that one goes through and leaves the vault as it is |
| PayoutVault.StrandedForever | contracts/solana/payout-run/src/lib.rs:170-181 | After that, over any traffic at all, the run never exists again and the vault never pays out |
| PayoutCommitment.OnlyTheListIsPaid | contracts/solana/payout-run/src/lib.rs:307-352 | Over every life of a run opened for the builder's root, whatever accounts and token programs are named, every payment booked is the list's own item: account, amount and ref, unless a digest collides |
| Bulk.PackGreedy | backend/internal/bulk/pack.go:48-71 | Order kept, nothing lost, every rule under its cap, and every batch but the last as full as the rules allow; refused exactly when one item does not fit |
| Bulk.PackAligned | backend/internal/bulk/pack.go:73-116 | Blocks of the alignment, in order, with the height and proof length of the padded list; refused only when a full block does not fit |
| Bulk.Pack | backend/internal/bulk/pack.go:23-46 | The whole plan in both modes, with its preparation batches and rent; of a list with rules it is refused exactly when the payments or the accounts to open cannot be cut, and for that reason |
| Bulk.NeedAccountSays | backend/internal/bulk/pack.go:121-127 | The accounts opened first are those of exactly the payouts that need one, as often as they occur and in list order |
| Bulk.MaxItems | backend/internal/bulk/limits.go:249-273 | The most items the rules that count allow, never above a block, and 0 when none counts |
| Bulk.FewestBatches | backend/internal/bulk/pack.go:48-71 | No split that keeps the order and fits the rules has fewer parts than the greedy one |
| Bulk.MaxItemsBounds | backend/internal/bulk/limits.go:249-273 | Of every plan, greedy or aligned: no batch holds more items than MaxItems answers, and there are ceil(n / MaxItems) of them, exactly when some rule counts items |
| Bulk.UncountedPlan | backend/internal/bulk/limits.go:264-266 | Otherwise not: with one rule that counts nothing, a plan with a batch of one where MaxItems answers 0 |
| PayoutSize.PlanIsRun | backend/internal/bulk/pack.go:73-116 | Pack and NewRun agree on the number of blocks, the items of each, the height and the proof length |
| PayoutSize.SizeIsRecorded | backend/internal/bulk/limits.go:76-110 | With different token accounts a block's transaction takes exactly the bytes Pack recorded, one less exactly when its data is under 128 bytes, and never more than 1,232 |
| Intake.Trace | backend/internal/intake/trace.go:14-43 | The lines of exactly this batch's payouts, or which mismatch was met, or the read past the accepted payouts that stops the program |
| Intake.TraceSays | backend/internal/intake/trace.go:14-43 | A batch traces to its lines exactly when the run has a line for each of its payouts and accepted each for the same merchant; it stops the program exactly when the run has the lines, everything it accepted there fits, and the batch goes on |
| Intake.TracesCoverTheRun | backend/internal/intake/trace.go:14-43 | However the run was packed, the lines of all batches end to end are the run's lines, each once and in order |
| Cells.HashIsIdentity | backend/internal/boc/boc.go:72-101 | Cells with the same digest are the same cell all the way down, unless two representations among them collide |
| CellOrder.IdentityApart | backend/internal/boc/boc.go:72-74 | Within one tree a collision-free digest tells every two cells apart |
| CellOrder.Walk.Visit | backend/internal/boc/boc.go:347-361 | The walk finishes each cell once, behind everything it references |
| CellOrder.ReverseInPlace | backend/internal/boc/boc.go:362-365 | Swapping from both ends inwards reverses the list |
| CellOrder.Order | backend/internal/boc/boc.go:343-366 | The root first, every distinct cell of the tree exactly once, each before all it references |
| Boc.BytesFor | backend/internal/boc/boc.go:406-413 | The least number of bytes that holds the value |
| Boc.AppendBE | backend/internal/boc/boc.go:415-421 | The number in that many bytes, high byte first |
| Boc.BagReadsBack | backend/internal/boc/boc.go:368-404 | A bag of that layout, read by the format's own rules, is the tree it lists |
| BocWriter.ToBoC | backend/internal/boc/boc.go:368-404 | The bytes written for any tree read back as the same tree: same bits, same references, all the way down |
| KnownForms.TinyBag | backend/internal/boc/boc_test.go:33-41 | The bag of the smallest cell the tests know is, up to its checksum, byte for byte the one they know |
| KnownForms.CellsInABag | backend/internal/boc/boc_test.go:44-66 | Two cells of the tests' tree as they stand in its bag |
| KnownForms.Representations | backend/internal/boc/boc.go:76-101 | What is hashed of a cell over two others: descriptors, padded bits, both depths high byte first, both hashes |
| CellBuilder.Builder.Bit | backend/internal/boc/boc.go:117-131 | One bit more, or the draft spoilt for good when there is no room |
| CellBuilder.Builder.Uint | backend/internal/boc/boc.go:133-139 | The low bits, the high one first |
| CellBuilder.Builder.Int | backend/internal/boc/boc.go:141-144 | Two's complement |
| CellBuilder.Builder.Bytes | backend/internal/boc/boc.go:146-152 | The bytes' bits in order |
| CellBuilder.Builder.Coins | backend/internal/boc/boc.go:154-167 | A length and the amount without leading zeros; negative or 2^120 and above spoils the draft |
| CellBuilder.Builder.Address | backend/internal/boc/boc.go:169-177 | The two-bit nothing, or the standard address |
| KnownForms.NumberBits | backend/internal/boc/boc.go:133-144 | Five in three bits, high bit first, and minus one in two |
| KnownForms.CoinBits | backend/internal/boc/boc.go:154-167 | No coins are four zeros, and 256 of them two bytes behind their number |
| KnownForms.AddressFields | backend/internal/boc/boc.go:169-177 | No address is two zero bits; any other is a one, two zeros, the workchain in eight bits and the hash |
| CellBuilder.Builder.Ref | backend/internal/boc/boc.go:179-190 | One reference more, or the draft spoilt behind the fourth |
| CellBuilder.Builder.MaybeRef | backend/internal/boc/boc.go:192-198 | A bit that says whether a reference follows |
| CellBuilder.Builder.Build | backend/internal/boc/boc.go:200-220 | The cell of exactly what was given, its last byte clear behind the bits, or the first error |
| CellReader.Slice.Bit | backend/internal/boc/boc.go:240-252 | The next bit; past the end everything reads as zero from then on |
| CellReader.Slice.Uint | backend/internal/boc/boc.go:254-264 | The next number of any width, of which the low 64 bits remain: all of it up to 64 |
| CellReader.Slice.Bytes | backend/internal/boc/boc.go:275-282 | The next bytes |
| CellReader.Slice.Coins | backend/internal/boc/boc.go:284-288 | The next amount |
| CellReader.Slice.Address | backend/internal/boc/boc.go:290-308 | The next address; unknown shapes spoil the slice |
| CellReader.Slice.Ref | backend/internal/boc/boc.go:310-322 | The next reference |
| CellReader.Slice.MaybeRef | backend/internal/boc/boc.go:324-330 | The reference a bit announces |
| CellReader.UintRoundTrip | backend/internal/boc/boc.go:133-139 | Every unsigned field that fits its width reads back, leaving what follows |
| CellReader.IntRoundTrip | backend/internal/boc/boc.go:266-273 | Every signed field that fits its width reads back, leaving what follows |
| CellReader.CoinsRoundTrip | backend/internal/boc/boc.go:284-288 | Every amount below 2^120 reads back, leaving what follows |
| CellReader.AddressRoundTrip | backend/internal/boc/boc.go:290-308 | Every address reads back, the missing one too |
| CellReader.BuiltReads | backend/internal/boc/boc.go:200-220 | A built cell holds exactly the bits and references its builder was given |
| TonMessage.TransferBody | backend/internal/chain/tonmsg.go:187-219 | The body cell of one payout, or the first reason it has none |
| TonMessage.InternalMessage | backend/internal/chain/tonmsg.go:226-243 | The message cell that carries it; an amount no field holds, or else a body as deep as cells go, is the error |
| TonMessage.TransferRequest | backend/internal/chain/tonmsg.go:107-185 | The signed cell over the action list of all messages in order, or the error of the first payout that cannot be sent |
| TonReader.ReadForwardRef | backend/internal/chain/tonread.go:389-409 | The reference of a payload held by reference with our op and 32 bytes and nothing more, and where the slice is left |
| TonReader.FindTransfer | backend/internal/chain/tonread.go:334-355 | The first message that carries the reference, or none |
| TonPayloads.PayloadSays | backend/internal/chain/tonread.go:389-409 | A payload names a reference exactly when its bits are our op and the reference's bytes and nothing more |
| TonPayloads.CarriesSays | backend/internal/chain/tonread.go:334-355 | A message is taken for a payment exactly when it is no bounce, its body opens with the transfer op, and behind the transfer's fields stands a reference to that payment's payload |
| TonReader.BodyReads | backend/internal/chain/tonmsg.go:187-219 | A transfer body reads back as exactly its payment |
| TonReader.MessageReads | backend/internal/chain/tonmsg.go:226-243 | A message cell reads back as bounceable, fee-free, with its destination, value and body |
| TonReader.UnwindsInOrder | backend/internal/chain/tonmsg.go:160-178 | Unwinding the action list innermost first gives the messages in list order |
| TonReader.RequestReadsBack | backend/internal/chain/tonread.go:334-409 | The signed cell gives back its fields and list, each body its payout, and with different refs looking for the i-th ref finds the i-th message |
| TonTrace.InternalOf | backend/internal/chain/tonread.go:370-387 | The amount, sender and reference of an internal_transfer, or nothing |
| TonTrace.BounceBack | backend/internal/chain/tonread.go:224-248 | Where a failed message ends: with its failure, or where its last bounce lands |
| TonTrace.Follow | backend/internal/chain/tonread.go:169-222 | The trace read off four looks at the chain, hop by hop |
| TonOutcomes.OutcomeIsWhatWas | backend/internal/chain/tonread.go:169-222 | Over every network run and whenever its looks are taken: an ended trace is rejected exactly when our jetton wallet aborted the transfer, and bounced exactly when ours succeeded and the merchant's aborted its internal_transfer |
| TonOutcomes.RejectedCostsNothing | backend/internal/chain/tonread.go:196-198 | Of a rejected payment nothing is debited or credited, at any moment of the run |
| TonOutcomes.BouncedComesBack | backend/internal/chain/tonread.go:213-215 | A bounced payment was debited once and credited to nobody, and every bounce of it that has landed gave it back in full |
| TonTrace.TraceOnlyMovesOn | backend/internal/chain/tonread.go:169-248 | However the chain grows between two traces and between the looks of each, the later one is never behind, and an end, its transaction and its amount never change |
| TonLookup.Lookup | backend/internal/chain/tonread.go:250-286 | The trace as the listener's observation, or why there is none |
| TonLookup.HighestOfSteps | backend/internal/chain/tonread.go:270-275 | The height of a payment on its way is that of one of its steps, and none of them is higher |
| TonLookup.LookupsAgree | backend/internal/chain/tonread.go:250-286 | A payment once included is never reported missing again, and what was final is reported the same ever after |
| TonLookup.VerdictStands | backend/internal/finality/finality.go:153-176 | So a final or failed verdict on TON is never overturned |
| TonLookup.MarkerDecides | backend/internal/finality/finality.go:153-176 | Of all policies, exactly those that ask for the chain's marker, as TON's does, never overturn a final or failed verdict, whatever two looks at one payment show |
| TonRuns.TracesMoveOn | backend/internal/chain/tonread.go:169-248 | Two traces of one payment of ours while the network runs, their eight looks taken at any rising moments, both succeed and the later is never behind |
| TonRuns.VerdictsHold | backend/internal/chain/tonread.go:250-286 | So what the listener is told while the network runs is never taken back: included stays included, final stays the same, and a final or failed verdict is never overturned |
| TonNetwork.RunIsLawful | backend/internal/chain/tonread_test.go:143-212 | Every network a run reaches keeps: each transaction does what its message asks, nothing sent is lost or handled twice, credits and balances agree |
| TonNetwork.RunGrows | backend/internal/chain/tonread_test.go:123-141 | Over a run transactions only accumulate |
| TonNetwork.DeliveredIsCredited | backend/internal/chain/tonread.go:169-222 | Whenever its four looks are taken during a run, tracing a payment of an accepted request succeeds and says delivered exactly when the first saw the request, the second our jetton wallet's handling of it and the third the merchant's own jetton wallet credited, once, with the amount reported |
| TonBalances.RunIsAccounted | backend/internal/chain/tonread_test.go:143-212 | Over every run our jetton wallet's balance is what it started with, less one debit for each transfer it carried out and plus one refund for each internal_transfer that came back, and nothing else |
| TonBalances.BounceReads | backend/internal/chain/tonread_test.go:203-212 | What a bounced internal_transfer says came back is the amount it carried |
| TonSettles.SettledIsCredited | backend/internal/listener/listener.go:176-192 | What the listener settles on TON has been credited to the merchant's own jetton wallet, in full |
| TonSettles.ToldIsWhatWas | backend/internal/chain/tonread.go:250-286 | Over every network run and whenever its looks are taken: reported included exactly when the first look saw the request handled, succeeded exactly when the third saw the merchant credited, and then with that amount and otherwise with none, final exactly when it succeeded or failed for good and has a masterchain height |
| Counter.Sequencer.Reserve | backend/internal/txseq/counter.go:45-66 | The next number, or the token handed back on a gap |
| Counter.Sequencer.ReserveGap | backend/internal/txseq/counter.go:68-88 | The gap's number, or the token handed back when there is none |
| Counter.Sequencer.Resolve | backend/internal/txseq/counter.go:90-125 | What each end of a send does to the account; stale answers change nothing |
| Counter.Sequencer.Sync | backend/internal/txseq/counter.go:127-146 | Aligning, refused while a number is out; a gap the chain has passed is gone |
| Counter.NoNonceTwice | backend/internal/txseq/counter.go:45-146 | Over every interleaving whose alignments are refused or stay above every used number: one number out at most, none handed out again after it was or may have been sent, and gaps hand out only the number last given up |
| CounterGaps.NoneIsSkipped | backend/internal/txseq/counter.go:90-146 | Over every interleaving, whatever the alignments: every number from the last alignment on that the counter has passed was sent under, is the gap that waits to be filled, or is in somebody's hands |
| Counter.TokenHasRoom | backend/internal/txseq/counter.go:93-125 | Giving the token back never finds its place taken |
| Counter.AlignRepeatsNothing | backend/internal/txseq/counter.go:127-146 | From every reached account with no number out: after aligning to n, no continuation of such alignments hands out a used number again exactly when n is above every used number |
| Counter.AligningBackRepeats | backend/internal/txseq/counter.go:134-146 | The shortest run on the other side: aligned back to 0, the counter repeats 0 |
| Idempotency.MemoryStore.Claim | backend/internal/idempotency/store.go:137-172 | Fresh, replay, in flight or mismatch, and the record afterwards |
| IdempotencyLeases.ArrivalsAre | backend/internal/idempotency/store.go:145-172 | Over every interleaving, in the arrivals and sweeps before it: a request is let in exactly when no record of its key is live, or it is the live one's own request, unanswered, and no lease is running; it gets the stored answer exactly when it is that request and there is one; any other is refused and changes nothing |
| IdempotencyRequests.OneRequest | backend/internal/idempotency/store.go:158-166 | Over every interleaving until the record expires, every answer that leaves for a key, run or replayed, goes to a request with the fingerprint of the one that opened the record |
| IdempotencyRequests.OthersGetNothing | backend/internal/idempotency/store.go:158-160 | Any other request under that key is refused and leaves the records as they are |
| Idempotency.MemoryStore.Complete | backend/internal/idempotency/store.go:174-194 | The answer of the current attempt is stored once and never replaced |
| IdempotencyLeases.FinishesAre | backend/internal/idempotency/handler.go:137-154 | A handler that ends stores its answer exactly when the record is still at its attempt and unanswered, and sends it unless a later attempt has taken the record over |
| Idempotency.MemoryStore.Sweep | backend/internal/idempotency/store.go:196-208 | Exactly the expired records go, and their number is returned |
| Idempotency.RunWrapped | backend/internal/idempotency/handler.go:137-139 | Whatever the wrapped handler writes, the first call decides the status and the body is all it wrote |
| Idempotency.CallsCount | backend/internal/idempotency/handler.go:181-205 | What is recorded of a handler's calls: the status set before anything else, 200 if none was, and all bytes in order |
| Idempotency.Serve | backend/internal/idempotency/handler.go:114-155 | One request does to the records, and answers, what one arrival and then, when the claim is fresh, one finish of the interleaved handlers do |
| Idempotency.OneAnswer | backend/internal/idempotency/handler.go:61-72 | Over every interleaving of handlers, lease takeovers and sweeps until a record expires: at most one answer is stored for the key, and every answer sent out for it is that one |
| Idempotency.AnswersAgree | backend/internal/idempotency/handler.go:71-72 | So no two different answers for one key ever leave |
| IdempotencyReclaim.ReclaimHasOneAnswer | backend/internal/idempotency/store.go:145-172 | From every reached world, a key claimed anew, absent or expired, has at most one answer stored and all answers sent for it equal until that record expires, whatever follows under one policy for the key, exactly when no handler left over from an earlier record is on an attempt that takeovers under that policy can reach |
| IdempotencyRequests.ReclaimHasOneRequest | backend/internal/idempotency/store.go:145-172 | From every reached world, answers for a key claimed anew go only to the request that claimed it, until that record expires, exactly when no handler left over from an earlier request is on an attempt that can still answer |
| IdempotencyReclaim.LeasesThatFit | backend/internal/idempotency/store.go:167-172 | For a lease and a lifetime above zero those are the handlers at work on the key whose attempt n has (n - 1) leases end before the lifetime does |
| IdempotencyReclaim.ExpiryForgets | backend/internal/idempotency/store.go:145-157 | The shortest run on the other side: the first handler outlives its record and both answers leave |
| Crc16.Checksum | backend/internal/boc/address.go:82-96 | The nested loops compute the register |
| Crc16.CrcIsRun | backend/internal/boc/address.go:82-96 | The byte-wise loop is the bit-serial division |
| CrcDivision.EmptyIsDivisible | backend/internal/boc/address.go:82-96 | The register is 0 exactly when the bits are a sum of shifts of the 17-bit word with ones at exponents 16, 12, 5 and 0: divisibility by the generator |
| CrcDivision.CheckIsDivision | backend/internal/boc/address.go:74-76 | A byte string passes the check exactly when its bits are divisible by the generator |
| CrcDivision.NineDigits | backend/internal/boc/address.go:82 | The check value: the nine digits have checksum 0x31c3 |
| Crc16.NoShortBurst | backend/internal/boc/address.go:82-96 | Two bit strings that both check never differ only within sixteen consecutive bits |
| Crc16.BurstsAreCaught | backend/internal/boc/address.go:69-80 | Two byte strings, each followed by its own checksum, never differ only within sixteen consecutive bits |
| FriendlyAddress.ParseFriendly | backend/internal/boc/address.go:48-80 | Which 48-character strings are addresses, and the address each is |
| FriendlyAddress.OneCharacterIsCaught | backend/internal/boc/address.go:69-80 | An accepted address with one character replaced passes the checksum exactly when the new character stands for the same six bits |
| AddressText.ParseAddress | backend/internal/boc/address.go:48-80 | Which strings are addresses in either form, and the address each is |
| AddressText.RawReadsBack | backend/internal/boc/address.go:27-31 | The raw form of every address reads back as that address |
| AddressText.FriendlyReadsBack | backend/internal/boc/address.go:33-46 | Both friendly forms of every address are accepted and read back as that address |
| AddressText.OneAddress | backend/internal/boc/address.go:27-46 | So whichever of its three forms an address is written in, the text reads as that address and names no other |
| KnownForms.AlphabetIsBase64 | backend/internal/boc/address.go:65-70 | A character stands for six bits exactly when it is their letter in base64, in the alphabet in use |
| KnownForms.FriendlyBegins | backend/internal/boc/address.go:33-46 | A bounceable address begins with E and a non-bounceable one with U, and on the base chain Q follows, on the masterchain f |
| KnownForms.AcceptedBegins | backend/internal/boc/address.go:71-73 | Every accepted friendly address begins with one of these or with the test network's k and 0 |

## Left out

- Relayer.Worker.Process: the limiter, the lease timeout and the wait for a number are one choice each (room or not, patient or not); the queue's own bookkeeping is not part of the model.
- Relayer.Worker.Rescue: which plan the fee policy picks is a parameter; prices, tries and ages are left out.
- Relayer.Worker.GiveUp: the parked note for people (dlq) is left out; reasons written into histories are fixed texts.
- SettlementSafety.SettledMeansPaidOnce: about intents the listener settled; an operator may settle from review without a post.
- SettlementSafety.SentAtMostOnce: about Send; a replacement on the same number is a separate event, and that the chain accepts only one of them is the chain's rule.
- SettlementFailed.EndedHolds: of the protocol without the accounts' numbers, so of workers with any sequencers, and of payments an operator fails from review too.
- SettlementSequencers.FailedIsClosed: a delivery at work is an actor, a wait for a number is steps in any order, a process that dies takes its actors and its numbers along, and a send that certainly did not leave is on record in whichever notebook wrote it down.
- Recon.Engine.SweepAll: putting an open intent back on the queue is only noted, queue errors are left out, and the order of the sweep is any order.
- Recon.Engine.Run: one clock reading a run, matches and findings in one list in order.
- ReconRuns.OneSettlesOthersPaidTwice: about runs nobody disturbs, with a watcher that agrees with the source.
- Bulk.Pack: amounts of use are unbounded numbers, the source's are 64 bits wide; which item is blamed in the error text is left out.
- Intake.TracesCoverTheRun: of runs whose list of lines is as long as their list of accepted payouts, as the intake builds them.
- BocWriter.ToBoC: for trees whose cells take less than 2^56 bytes in a bag; from there on the byte counter of the source does not end.
- PayoutProgram.PayBatch: SPL Token's transfer moves or fails; signer seeds, lamports and rent, delegates and close authorities are left out, and another token program is any function of the token accounts.
- PayoutProgram.Clawback: the same, and the lamports it sends back.
- PayoutProgram.InitRun: creating an account at an address that already holds lamports counts as an address in use; lamports and rent are left out, and another token program leaves a new vault blank.
- PayoutVault.LifeAdds: this run's own batches name SPL Token, as a caller can check; a program-derived address signs nothing itself, and programs spend only with signatures they were handed.
- PayoutVault.ClawbackReturnsTheRest: the clawback names SPL Token; what another program does with the run's signature is not said.
- TonTrace.TraceOnlyMovesOn: of any two growing chains whose traces succeed; TonRuns.TracesMoveOn is about runs and needs no such condition.
- TonLookup.LookupsAgree: the same; TonRuns.VerdictsHold is about runs.
- TonLookup.VerdictStands: the same.
- TonNetwork.DeliveredIsCredited: a network of reference jetton wallets that may fail at any message and whose failures may or may not be bounced; gas, storage fees and a jetton's total supply are left out, and a payment to our own jetton wallet counts as a merchant's.
- FriendlyAddress.ParseFriendly: one branch of AddressText.ParseAddress, the 48-character form.
- Idempotency.Serve: scopes, key syntax and body limits come before it and answer without the store.
- The window scan of the TON reader (`Transfers`, `Watch`) and the other chains' message builders: the same encodings again.
- HTTP routing, JSON, CSV, command-line programs, formatting and logs.
- Goroutines, timeouts, panics, the worker pool and the throttle: steps in any order, stopping anywhere, stand for them.
- The queue and the dead-letter store: delivery is adversarial instead.
- The fee and fault policies' own arithmetic: every plan and every verdict is allowed.
- The unordered sequencer: it hands out nothing.
- Settlement.sol, Permit2, the Move module and the jetton contracts are not part of this model.
- SettlementProgress.GiveUpEnds: one actor's stretch with nobody in between; that the queue delivers at all, and fairly, is not part of the model.
