# Verification of the trading agent's money rails

This project models, in Dafny, the parts of the agent where a mistake moves capital twice, hides a
loss, or lets a rail open: the proposal store and the approval protocol built on it, the
incremental kill-switch basis, the autonomous tick, its rails and its options gate, the options close
sweeps, and the two playbook ledgers. `dafny verify dfyconfig.toml` checks all of it.

## How the models are laid out

- **Approval protocol.** `ApprovalProtocol` is a step machine on one proposal id: any number of
  processes run `quant_approve`, `quant_reject`, the legacy `approve` and the TTL sweep, each SQL
  statement and each bus append is one step, the reactor and the clock are free inputs, and a
  process may die anywhere, also in the middle of an append. `ApprovalInvariant` proves one
  inductive invariant; `ApprovalSafety` draws the guarantees from it; `TornTail` shows where they
  stop; `SoloApproval` ties undisturbed runs to the store's own operations; `ApprovalTtl` follows the TTL
  through every interleaving.
- **Proposal store.** `ProposalStore` is the store as a class over a byte bus and an index map, on
  top of `ByteLines` (newline splitting), `ProposalBus` (replay of the bus) and `IsoTime` (the
  timestamps and the expiry test). Its `Valid()` says the index *is* the replay of the bus. The store
  is proved for every lawful codec, and `ProposalCodec` is one: a concrete encoder and parser that
  meet the law, with which an open store exists.
- **Kill-switch basis.** `TextLines` (chunked reading), `StableSort`, `Settlement` (normalise and
  match fills), `JoinFills` (the join with its carry), `NavShare` (what depends on the account's NAV),
  `DeltaNormalizer` (the pre-pass), `KillSwitchTrail` (the guard, the replay, and what a sequence of
  consumed batches adds up to), `KillSwitchBasis` (the checkpoint as a class, and whole schedules),
  `BucketFilter` (which records an answer depends on, and what it is in money), `LegUnits` (lots closed in
  parts), `KillSwitchTimes` and `KillSwitchDrift` (where incremental and replay part, and exactly why).
- **Tick rails.** `TickRails` is one tick past its lock; `RailLock` is overlapping ticks with the
  kill switch, the per-account lock and a shared book. `OptionsGate` is the options gate the tick asks,
  `OptionsRecipes` the structures it is asked about and the funds it is shown, `OptionsPayoff` what those
  can lose at expiry, and `OpenBook` the book that the concurrent cap reads from the executions bus.
- **Closes and ledgers.** `OptionsClose`, `PlaybookWeekly`, `PlaybookQuarterly`, `TailReader`.

Quantities are `real`; an unparseable number or time is an explicit case where a branch depends on
it. Timestamps of fills are integers (nanoseconds); timestamps of proposals are the text the code
compares.

## What turned out not to hold

Each of these is a counterexample next to the exact condition, or the exact statement, that does hold.
*Incremental equals full replay, for any bus* (`hermes_quant/autonomous.py:724-726`) fails in three ways;
where none of them applies it holds at every tick of every schedule (`KillSwitchBasis.Drive`).

- *Two times on one record.* The guard reads `asof_execution` first and the matcher reads `asof` first.
  A record with both, and different ones, passes the guard and changes the answer
  (`KillSwitchDrift.TwoTimesDrift`). A fill of the account is safe with every well-timed bus iff its two
  readings agree (`KillSwitchTimes.AnswerSafeIff`).
- *`HERMES_QUANT_DELTA_NORMALIZER=1`.* A normaliser is built fresh for every batch and sorts only that
  batch by the text of the execution time, so its running nets and its order are lost at each
  checkpoint. A position opened in one tick and flattened in a later one is never seen to close
  (`KillSwitchDrift.CloseIsMissed`), and a target without an execution time changes the answer even in a
  flat bucket (`KillSwitchDrift.UndatedTargetDrift`). A batch is normalised as in the whole stream iff
  no record of it sorts before a consumed one and every bucket it re-targets was flat
  (`DeltaNormalizer.FreshNormaliserIff`); where that holds for each batch the answer is the replay.
- *A moving NAV.* A multi-leg round trip is weighed by the NAV of the tick that settles it and stays
  at that weight in the carried sum; the replay weighs all at the current NAV. The two agree iff each
  batch's multi-leg money, times the difference of the two weights, nets to nothing over the batches
  (`KillSwitchTrail.FrozenIsReplayIff`); with one NAV for all batches that is: the NAVs are one, or the
  money nets to nothing (`KillSwitchTrail.FrozenAtOldNavIff`).

The other claims that fail:

- *Replay is safe after a torn append* (`hermes_quant/proposals.py:798-857`). It is until the next
  append: nothing trims the fragment, so the next line is glued to it, and while that line is last it
  is skipped as if torn. A lost approve line reopens the proposal (`TornTail.TornTailDoubleFires`), and
  whatever the run before it, a claim about to be appended after a fragment can always be continued
  to a second capital move (`TornTail.TornClaimFiresTwice`). Safety holds on every run in which no
  append lands on a torn tail. Appends are taken to tear only by a crash: the return value of
  `os.write` is not looked at (`hermes_quant/proposals.py:974-981`), so a short write without a crash
  would be one more way to tear.
- *An approval past its TTL is refused* (`hermes_quant/proposals.py:320-335`). The claim tests the clock only
  if the row it reads is pending. If it reads another caller's claim there, and that one is released
  before its own compare-and-set, it wins without a clock test and fires, however late
  (`ApprovalTtl.LateClaimFires`, from every such overlap; `ApprovalTtl.TtlSlips`, a whole run without a
  crash). Whoever fires had read, as its last read, a pending row in time or a row that was not pending
  (`ApprovalTtl.FireWasChecked`).
- *A lot's true units are shared out over its round trips* (`hermes_quant/daemon/settlement_loop.py:964-973`).
  A partial close lowers the lot's quantity but not its units, so each further part is a share of what is
  left of the one and of all of the other: the units add up to the lot's iff it is closed at one stroke or
  has none, and to more otherwise (`LegUnits.UnitsKeptIff`).
- *A defined-risk structure loses at most its `max_loss`* (`hermes_quant/options/recipes.py:620-625`,
  `hermes_quant/options/recipes.py:1059-1061`). For a spread that holds iff the sold leg is quoted no lower
  than the bought one; the other way round the gate counts what was paid and not the width
  (`OptionsPayoff.SpreadLossIff`). For a condor it holds iff the sides are not inside out, the long put
  above the short call and the short put above the long call; the legs are picked by delta, and nothing
  compares them (`OptionsPayoff.CondorLossIff`).
- *The book never passes `max_concurrent_positions`* under the lock. A reactor exception may hide a fill
  (`RailLock.HiddenFillsPile`), and a symbol the stop sweep reports stopped may stay in the book
  (`RailLock.LingeringPasses`). As the tick is written, live ticks keep the cap on every run iff neither
  can happen, whether options are on or off (`RailLock.CapAsWritten`): the tick shows the options gate no
  buying power and no shares, and then the gate admits no structure (`OptionsGate.UnfundedAdmitsNothing`).
  With funds to show the cap would break without either (`RailLock.CapHoldsIff`). A family is booked with
  size zero, which adds nothing to the book and hides the underlying from it (`OpenBook.FamilyOnlyHides`),
  so the next tick counts a slot too few (`RailLock.MaskedPasses`); and it exempts its symbol from the cap
  for the rest of the tick (`RailLock.ExemptPasses`). `RailLock.ConcurrentCapHolds` is the bound that
  always holds, with the uncounted entries counted.
  The sweep fires with target zero and reports a symbol stopped iff the reactor answers and its realised
  size is not zero, so a symbol lingers only behind a reactor that answers a zero target with a missing or
  a non-zero size and leaves the position open. None of the shipped ones does: paper realises zero, the
  deterministic one sizes the exit at zero shares, and Alpaca raises on a zero notional. With answers like
  these the sweep reports nothing stopped at all (`RailLock.ZeroExitsStopNothing`).
- *`covered_call`: admitted iff held shares are at least 100 per contract* (`hermes_quant/risk/options_gate.py:9`).
  The shares are compared with the structural count, and the size is chosen afterwards: with shares for one
  contract a call of any number of contracts can be admitted (`OptionsRecipes.CallsOutrunShares`). The
  shares held cover the admitted calls iff the order is the wheel's or the size target does not reach one
  contract past them (`OptionsGate.CoveredAtSizeIff`); the proposal built afterwards orders a share leg for
  the admitted number. In the same way the power required of a debit structure
  is the price of one unit at any size (`OptionsRecipes.DebitsOutrunPower`); the other kinds are secured at
  the admitted size (`OptionsGate.AdmittedIsSecured`).
- *One close per symbol, play and week.* The guard reads the journal; a write that fails is only
  logged, and a read that fails counts as no close. At most one order fills per key iff every later due
  close finds a readable journal with an earlier close in it (`PlaybookWeekly.FillsOnceIff`), and at most
  one is recorded iff none is written under an unreadable journal after another
  (`PlaybookWeekly.RecordedOnceIff`); two runs show both ways to fail (`PlaybookWeekly.ClosesTwiceIff`).

## Model

| member | source | states |
|---|---|---|
| ApprovalInvariant.ApplyKeepsInv | hermes_quant/proposals.py:290-452 | every step, crash, index loss and recovery of the whole system keeps one invariant: one owner of the row, owner facts by program point, row and bus agreeing at rest |
| ApprovalSafety.NoDoubleFire | hermes_quant/tools.py:824-907 | over every interleaving of any number of processes, with crashes anywhere, at most one reactor call moves capital |
| ApprovalSafety.FireOwnsClaim | hermes_quant/proposals.py:352-390 | whoever is about to fire wrote the row and the last bus line, no capital has moved, and no other process is between claim and finish |
| ApprovalSafety.OneWinnerPerEpoch | hermes_quant/proposals.py:633-692 | a compare-and-set is won only on a pending row nobody owns, and wins never outnumber the times the row became pending |
| ApprovalSafety.RecoveryNeverReopens | hermes_quant/proposals.py:778-896 | from any reachable crash state the rebuild succeeds and never yields a pending row once capital has moved |
| ApprovalSafety.AmbiguousNeverReopens | hermes_quant/tools.py:891-907 | after an ambiguous reactor failure nobody ever wins the row again, nothing more is appended and no further capital moves, whatever happens later |
| ApprovalSafety.RestAgreement | hermes_quant/proposals.py:994-1059 | whenever nobody owns the row and no crash is unrepaired, the index row is exactly the last bus record |
| ApprovalSafety.PayloadNeverDrifts | hermes_quant/proposals.py:332-363 | every row and bus line carries what was proposed, and a pending row is exactly that record, also when an update was built from a stale read across another caller's claim and release |
| ApprovalSafety.OnlyOwnersAppend | hermes_quant/proposals.py:364-384 | only the owner of the row appends; a contender that lost its compare-and-set appends nothing |
| ApprovalSafety.LanguageIsPhase | hermes_quant/proposals.py:926-947 | a four-state automaton accepts exactly the prefixes of create (approve create)* (approve approve? or reject or expire) |
| ApprovalSafety.BusLanguage | hermes_quant/proposals.py:926-947 | in every reachable state the events of one id form such a word |
| TornTail.AppendReplayedIffEnded | hermes_quant/proposals.py:974-992 | a new record is what replay finds last iff the file ended in a newline |
| TornTail.TornClaimFiresTwice | hermes_quant/proposals.py:798-857 | from any clean run of any number of processes, a claim about to be appended after a torn fragment has a continuation in which two reactor calls move capital |
| TornTail.TornTailDoubleFires | hermes_quant/proposals.py:798-857 | a concrete run, with an append onto a torn tail, in which two reactor calls move capital on one proposal |
| SoloApproval.SoloApproveIsApproval | hermes_quant/tools.py:709-1106 | eight steps of one process among any number, undisturbed, leave the record, bus lines and capital that the store's operation specifies |
| SoloApproval.SoloLateExpires | hermes_quant/proposals.py:918-924 | an undisturbed approval at its lookup, its claim or after a lost one, a rejection or a legacy approval, past the TTL, leaves the row expired, one expire line and no capital moved |
| SoloApproval.SoloLateAtClaim | hermes_quant/proposals.py:333-335 | so does an approval that looked in time and reaches its claim too late |
| SoloApproval.SoloTransitions | hermes_quant/proposals.py:454-563 | undisturbed and in time, a rejection and a legacy approval leave the record and the one line that the store's operations specify |
| SoloApproval.SoloSweeps | hermes_quant/proposals.py:565-622 | an undisturbed sweep step expires a pending row with one line |
| SoloApproval.SoloRefuses | hermes_quant/tools.py:767-809 | without a row, on a row that is not pending, or without a size, nothing changes |
| ApprovalTtl.FireWasChecked | hermes_quant/proposals.py:332-362 | over every run of any number of processes, crashes and torn appends included, a process past its claim's read had as its last read either a pending row in time or a row that was not pending |
| ApprovalTtl.LateClaimFires | hermes_quant/proposals.py:918-924 | from every clean run in which one process is at its claim's read while another is about to fire there is a clean continuation in which it fires although every step it takes is past the TTL |
| ApprovalTtl.TtlSlips | hermes_quant/proposals.py:918-924 | such a run, clean from the start, exists for every proposal |
| ApprovalTtl.UnsizedNeverClaims | hermes_quant/tools.py:796-809 | in every run an approval whose size resolves to zero reaches no claim, whatever the others do |
| ProposalStore.Store.constructor | hermes_quant/proposals.py:117-126 | an empty store is in step: no rows, no lines |
| ProposalCodec.LawIsMet | hermes_quant/proposals.py:926-992 | a concrete codec prints every proposal as one line that decodes to it |
| ProposalCodec.OpenStore | hermes_quant/proposals.py:117-126 | with that codec a valid store exists |
| ProposalStore.Store.AppendAudit | hermes_quant/proposals.py:926-992 | appends exactly one line and updates the replay at exactly that id |
| ProposalStore.Store.Persist | hermes_quant/proposals.py:994-1059 | bus line and unconditional upsert of any record leave index and replay in step |
| ProposalStore.Store.CasFromPending | hermes_quant/proposals.py:633-692 | wins iff the row is pending, and changes only that row on a win |
| ProposalStore.Store.Propose | hermes_quant/proposals.py:204-235 | the new pending record is the row and the appended create line |
| ProposalStore.Store.ExpireOne | hermes_quant/proposals.py:565-622 | expires iff pending; otherwise nothing changes |
| ProposalStore.Store.RejectIfExpired | hermes_quant/proposals.py:918-924 | a late pending record is expired and reported late; anything else is untouched |
| ProposalStore.Store.Get | hermes_quant/proposals.py:716-747 | returns the row, lazily expired when its TTL has passed |
| ProposalStore.Store.ClaimForApproval | hermes_quant/proposals.py:290-390 | a live proposal becomes the caller's claim in row and bus; a missing, late or closed one is refused with its own error and only a late one changes |
| ProposalStore.Store.RecordExecution | hermes_quant/proposals.py:392-416 | attaches the execution to the record whatever its state, or reports it missing; only on a pending row does it leave a row the other operations do not expect |
| ProposalStore.Store.ReleaseClaim | hermes_quant/proposals.py:418-452 | re-pends exactly an approved record without an execution, as it was proposed |
| ProposalStore.Store.LegacyApprove | hermes_quant/proposals.py:454-507 | approves a live proposal with its execution; refuses others as the claim does |
| ProposalStore.Store.Reject | hermes_quant/proposals.py:509-563 | rejects a live proposal; an empty reason changes nothing |
| ProposalStore.Store.SweepExpired | hermes_quant/proposals.py:694-711 | expires exactly the pending rows whose expiry text is at most now's, and returns their number |
| ProposalStore.Store.ReconcileIndex | hermes_quant/proposals.py:778-896 | fails iff the bus is corrupt, leaving the index alone; otherwise the index is the replay, and a store in step is unchanged |
| ProposalStore.Store.FireAndSettle | hermes_quant/tools.py:865-1045 | a claim ends released to its proposal, executed, or left claimed, according to the reactor's outcome |
| ProposalStore.Store.QuantApprove | hermes_quant/tools.py:709-1106 | the whole client call, its lookup, claim and settlement each at its own clock reading: every answer with the exact row and lines it leaves, a TTL that runs out before the claim included; a refused or unfilled reactor leaves the index as it was |
| ProposalStore.StandingTells | hermes_quant/proposals.py:902-924 | a proposal is live iff it is there, pending and in time; missing, closed and late ones have their own errors, in that order |
| ProposalStore.TransitionsTell | hermes_quant/proposals.py:338-348 | a claim, an execution, a rejection and an expiry of a new record write exactly their own fields, and a release gives the record back |
| ProposalStore.AnswersTell | hermes_quant/tools.py:865-1106 | the client is told of a booking iff the reactor filled, with the record that carries the execution, of a failure iff capital may have moved, and else that nothing was filled |
| ProposalBus.LatestIsLastLine | hermes_quant/proposals.py:799-857 | replay keeps exactly the ids with a decodable line, each with its last one |
| ProposalBus.AppendUpdatesOne | hermes_quant/proposals.py:974-992 | appending an encoded line to a clean file updates the replay at exactly its id |
| ProposalBus.TornTailSkipped | hermes_quant/proposals.py:798-857 | a torn fragment at the end changes nothing about the replay |
| ProposalBus.GluedLineIsLost | hermes_quant/proposals.py:798-857 | a line appended onto a fragment is dropped by a replay that still succeeds, and one more append makes the replay refuse |
| ProposalBus.Replay | hermes_quant/proposals.py:798-857 | raises iff some malformed line is not the last non-blank one, naming a malformed line; otherwise last-wins per id |
| IsoTime.IsoOrder | hermes_quant/proposals.py:1096-1100 | text order of printed instants is time order of whole seconds |
| IsoTime.ParseIso | hermes_quant/proposals.py:1103-1112 | parsing a printed instant gives it back truncated to the second |
| IsoTime.TextTestIsTimeTest | hermes_quant/proposals.py:694-711 | the sweep's text test selects a row iff the parsed test calls it past |
| IsoTime.NeverLate | hermes_quant/proposals.py:1103-1112 | a proposal whose expiry has come is in the past, and the test is exactly the order of whole seconds |
| IsoTime.UnreadableIsPast | hermes_quant/proposals.py:1103-1112 | a timestamp that is not of the printed form counts as past at any time |
| ByteLines.SplitJoins | hermes_quant/proposals.py:803-817 | splitting on newlines loses no byte and leaves none inside a piece |
| TextLines.ConsumedAfter | hermes_quant/autonomous.py:1053-1066 | reading on from a consumed prefix consumes exactly the rest up to the last newline |
| TextLines.PiecesConcat | hermes_quant/autonomous.py:1061-1065 | chunks that end in a newline split into text lines on their own, for every UTF-8 line separator |
| TextLines.EveryLineOnce | hermes_quant/autonomous.py:1026-1066 | over any run of reads of a growing file the chunks are the bytes to the last newline seen and every line is delivered once, in order |
| StableSort.OnlyStableSort | hermes_quant/daemon/settlement_loop.py:665-684 | the sort by time with bus order breaking ties is the one stable sort |
| StableSort.SortConcat | hermes_quant/autonomous.py:724-736 | sorting prefix and batch together is sorting each, when no element of the batch has a smaller key |
| Settlement.FillOfRecord | hermes_quant/daemon/settlement_loop.py:497-664 | which records are fills, and of what: never a multi-leg parent; of their own positive quantity or the magnitude of their size, on their own side or the one the size points to |
| Settlement.ClosesOldestFirst | hermes_quant/daemon/settlement_loop.py:937-1012 | a close takes the lots from the oldest on, one round trip each at the lot's own price, using up all but the last to dust, and leaves the rest in order |
| Settlement.QueuesStayAged | hermes_quant/daemon/settlement_loop.py:905-934 | a stream in time order keeps every queue oldest first |
| Settlement.FoldFacts | hermes_quant/daemon/settlement_loop.py:1048-1061 | no bucket ever holds both directions, and no round trip pairs an exit with a later entry |
| Settlement.SortedNeverDefers | hermes_quant/daemon/settlement_loop.py:937-955 | a stream in time order on a book no later than it defers no exit |
| Settlement.CloseMatches | hermes_quant/daemon/settlement_loop.py:937-1012 | the round trips of a close account for exactly the quantity the fill lost |
| Settlement.ReturnIsProfit | hermes_quant/daemon/settlement_loop.py:956-1003 | a round trip's return is its profit net of both sides' prorated fees over the money put in, long or short |
| Settlement.FoldConserves | hermes_quant/daemon/settlement_loop.py:867-1046 | open and held-back quantity is what was traded, up to a dust bound in the number of round trips and fills |
| Settlement.FoldConcat | hermes_quant/daemon/settlement_loop.py:686-717 | matching is compositional: a prefix, then the rest on the book it left |
| LegUnits.UnitsOfTrip | hermes_quant/daemon/settlement_loop.py:964-976 | a round trip carries the lot's units in proportion to the part of the lot it matched |
| LegUnits.UnitsKeptIff | hermes_quant/daemon/settlement_loop.py:964-1003 | over any sequence of exits that closes a lot, the units of its round trips add up to the lot's iff there is one exit or no units, and exceed them otherwise |
| JoinFills.Serialise | hermes_quant/autonomous.py:910-933 | the stored list spells the open lots: each bucket once, in some order |
| JoinFills.CarryRoundTrip | hermes_quant/autonomous.py:935-946 | reading the stored lots back gives the same matching whatever the order of the list |
| JoinFills.CloseLoop | hermes_quant/daemon/settlement_loop.py:933-1003 | the loop that closes lots is the recursive first-in-first-out close |
| JoinFills.SettleOne | hermes_quant/daemon/settlement_loop.py:867-1046 | one fill touches its own bucket alone, keeps every bucket one-sided, moves the bucket's open and held-back quantity by the fill's signed size up to dust, and settles only earlier entries |
| JoinFills.JoinExitFills | hermes_quant/daemon/settlement_loop.py:686-1072 | the whole join, with its carry in, is sort and fold |
| JoinFills.JoinInBatches | hermes_quant/autonomous.py:724-736 | joining a batch onto the carried lots gives the book and the round trips of joining everything, when no fill of the batch is earlier than a settled one |
| JoinFills.JoinConserves | hermes_quant/daemon/settlement_loop.py:686-1072 | for any carry, held-back exits included, what a join leaves open or held back of a bucket is what the carry held and the records traded, up to dust |
| JoinFills.SumTrips | hermes_quant/autonomous.py:831-894 | the realised fraction is the sum of the paper-default terms, multi-leg legs by their notional over NAV |
| BucketFilter.KeptJoin | hermes_quant/daemon/settlement_loop.py:686-1072 | under either flag, the round trips of any choice of buckets are the round trips of their records alone |
| BucketFilter.TotalOfOwn | hermes_quant/autonomous.py:863-870 | the sum over round trips is the sum over those of the paper-default account |
| BucketFilter.OtherAccountsCountNothing | hermes_quant/autonomous.py:838-846 | deleting every record of the other accounts changes no replayed answer, under either flag and at any NAV |
| BucketFilter.ParentsCountNothing | hermes_quant/daemon/settlement_loop.py:497-556 | deleting every multi-leg parent record changes no replayed answer |
| BucketFilter.FoldPays | hermes_quant/daemon/settlement_loop.py:937-1003 | every round trip of every fold returns its profit over the money put in |
| BucketFilter.TermIsMoney | hermes_quant/autonomous.py:863-895 | such a round trip counts for nothing in another account, for its profit per unit of quantity times its true units over NAV if it has units and NAV is positive, and else for its profit over the entry price |
| NavShare.NavMattersIff | hermes_quant/autonomous.py:831-894 | the same round trips are worth the same at two NAVs iff those are one or the multi-leg money nets to nothing |
| NavShare.SingleLegNeedsNoNav | hermes_quant/autonomous.py:847-850 | a stream without multi-leg quantities is worth the same fraction at every NAV |
| KillSwitchTrail.Bounds | hermes_quant/autonomous.py:948-966 | the least and greatest guard time of the records that have one |
| KillSwitchTrail.GuardIsSound | hermes_quant/autonomous.py:767-776 | where guard time and sort time agree, a batch that passes the guard holds no earlier fill, with the pre-pass or without |
| KillSwitchTrail.AdditiveIff | hermes_quant/daemon/settlement_loop.py:735-748 | the pre-pass makes of a batch what it makes of it in the whole stream: always without the flag, and with it iff the batch sorts after the prefix and re-targets only flat buckets |
| KillSwitchTrail.TrailGrows | hermes_quant/autonomous.py:798-806 | a batch that passes the guard adds to the carried sum what it adds to the replay at its tick's NAV, and leaves the replay's lots |
| KillSwitchTrail.FrozenIsReplay | hermes_quant/autonomous.py:724-726 | the sum over batches is the replay when NAV never moved or every trade is single-leg |
| KillSwitchTrail.FrozenAtOldNavIff | hermes_quant/autonomous.py:867-890 | batches consumed at one NAV are worth the replay at another iff the two are one or the settled multi-leg money nets to nothing |
| KillSwitchTrail.FrozenIsReplayIff | hermes_quant/autonomous.py:867-890 | batches consumed at any NAVs are worth the replay at one NAV iff each batch's multi-leg money, times the difference of the reciprocal NAVs, sums to zero |
| KillSwitchBasis.SummaryGrows | hermes_quant/autonomous.py:798-823 | consuming a batch that passes the guard carries the checkpoint's summary of its batches forward, under every flag and NAV |
| KillSwitchBasis.Basis.TryIncremental | hermes_quant/autonomous.py:737-823 | the incremental answer is its batches' sum, each at its own NAV, or asks for the replay because the guard failed |
| KillSwitchBasis.Basis.FullReplay | hermes_quant/autonomous.py:777-823 | the replay of the complete lines, a fresh checkpoint that summarises them, or the last stored answer on a line the matcher chokes on |
| KillSwitchBasis.Basis.Compute | hermes_quant/autonomous.py:663-828 | without a checkpoint to resume the answer is the full replay at the current NAV; with one it is the carried sum plus the batch, which is the sum of its batches where the two times agree and the pre-pass is additive; the sidecars then hold that answer; a fault answers the last stored value and stores nothing |
| KillSwitchBasis.Basis.Append | hermes_quant/autonomous.py:1053-1066 | any append, partial line or not, keeps the checkpoint a summary of what it consumed |
| KillSwitchBasis.Basis.Replace | hermes_quant/autonomous.py:968-991 | any replacement is accepted, and keeps the checkpoint sound unless it has the same inode and the same tail before the offset over different consumed bytes |
| KillSwitchBasis.Drive | hermes_quant/autonomous.py:724-736 | for every schedule of appends, rotations, lost checkpoints, failed writes, flag changes and NAV moves, each tick answers the sum of its batches, and the full sorted replay where NAV fits, whenever the batches are sound |
| KillSwitchBasis.PlainTickIsReplay | hermes_quant/autonomous.py:724-736 | without the normaliser, with one NAV or only single-leg trades, each such answer is the full replay of everything complete on the bus |
| KillSwitchTimes.AnswerSafeIff | hermes_quant/autonomous.py:948-966 | a fill of the account above dust keeps two ticks and the replay equal on every otherwise well-timed bus iff guard and matcher read the same time of it |
| KillSwitchTimes.InTwoIsCarried | hermes_quant/autonomous.py:935-946 | the two-tick answer is what the carried lots give, whatever the order of the list |
| KillSwitchDrift.GuardSoundIff | hermes_quant/autonomous.py:948-966 | the guard protects a fill against every well-keyed fill in both orders of arrival iff it compares the time the matcher sorts by |
| KillSwitchDrift.TwoTimesDrift | hermes_quant/autonomous.py:948-966 | a three-record bus on which the checkpoint path answers -50% and the replay +100% |
| KillSwitchDrift.CloseIsMissed | hermes_quant/daemon/settlement_loop.py:735-748 | under the normaliser flag a close in a later tick is never booked by the checkpoint path; the replay books the loss |
| KillSwitchDrift.UndatedTargetDrift | hermes_quant/daemon/settlement_loop.py:739-741 | under the flag, with every time honest and the bucket flat, a late target without an execution time makes checkpoint and replay answer -2.5% and -1% |
| DeltaNormalizer.SameDeltasIff | hermes_quant/state/fill_delta_normalizer.py:214-277 | two starting nets give a batch the same deltas iff they agree on every bucket the batch retargets |
| DeltaNormalizer.FreshNormaliserIff | hermes_quant/daemon/settlement_loop.py:735-748 | the pre-pass of a stream is the pre-pass of prefix and batch apart iff no record of the batch sorts before one of the prefix and every bucket the batch re-targets was flat after it |
| DeltaNormalizer.DeltasAddUp | hermes_quant/state/fill_delta_normalizer.py:214-277 | the deltas of a bucket add up to what its net moved by |
| DeltaNormalizer.NetAfterOne | hermes_quant/state/fill_delta_normalizer.py:143-210 | a target sets its bucket's net to its size, a traded amount adds to it, and a size that is no number leaves it |
| TickRails.ClipIsMaximal | hermes_quant/risk/portfolio_normalize.py:447-573 | from inside the net cap the clip is the largest size in the pick's direction that breaks no cap, and silences iff there is none |
| TickRails.SizeWithinBounds | hermes_quant/autonomous.py:3825-3994 | no stage of the size pipeline enlarges; a stopless size stays in its band and a capped one in the headroom |
| TickRails.SizeIsKellyUnlessBound | hermes_quant/autonomous.py:3825-3994 | stages with nothing to object leave the advisor's size alone |
| TickRails.SizeIsStaged | hermes_quant/autonomous.py:3825-3994 | the size is exactly the advisor's or the portfolio's smaller one, cut to the stopless band or refused there, then the largest the caps allow or refused, then for a sale what the admissibility check says |
| TickRails.RunWatchlist | hermes_quant/autonomous.py:3582-4106 | the watchlist loop is the fold of one signal's step, and every equity fire it decides is of a view whose own silence gate fired and whose order was dry or filled |
| TickRails.OneSignal | hermes_quant/autonomous.py:3582-4104 | one signal ends as the first that holds it says: stopped or unseen, its silence gate, the per-tick cap, the concurrent cap or a failed read, its size, the reactor's answer; each with the exact counters, headroom and decision it leaves, and only a dry or filled order fires |
| TickRails.SignalEnds | hermes_quant/autonomous.py:3768-4104 | the same for the step that the loop folds |
| TickRails.FiresWereGated | hermes_quant/autonomous.py:3768-3772 | over a whole list, each equity fire among the decisions belongs to a view of its symbol whose gate fired and whose order was dry or filled |
| TickRails.SizeSignal | hermes_quant/autonomous.py:3825-3994 | the size a signal asks for is the staged one: never more than the advisor's, in the stopless band when its stop is missing, and within the headroom under caps |
| TickRails.EverySignalDecided | hermes_quant/autonomous.py:3768-4104 | fires, silences, errors and rejected structures add up to the decisions; with options off nothing is rejected, fires, silences and errors are the decisions, and every signal the sweep left is decided exactly once |
| TickRails.PerTickCapHolds | hermes_quant/autonomous.py:3768-3782 | equity and options fires counted in a tick never exceed the per-tick cap |
| TickRails.StepCharges | hermes_quant/autonomous.py:4030-4064 | the headroom book changes only by a fire under its own symbol, by no more than the requested size |
| TickRails.GrossStaysCapped | hermes_quant/autonomous.py:3905-3943 | over a whole tick the running gross exposure never passes the tighter of the gross and cash caps unless it began there |
| TickRails.UnfundedOriginatesNothing | hermes_quant/autonomous.py:3717-3735 | without buying power and a lot of shares the tick's options attempt ends in nothing or a rejection, whatever structure it offers |
| OpenBook.Reconstruct | hermes_quant/portfolio/state.py:127-228 | the positions are the last non-zero targets of the records that count |
| OpenBook.TargetsAreDecided | hermes_quant/portfolio/state.py:212-223 | the target kept for a symbol is that of the counting record of greatest time, the last among equals, and none is kept iff no record counts |
| OpenBook.FillShows | hermes_quant/portfolio/state.py:184-223 | a counting record no earlier than the bus shows its symbol, or hides it when its target is zero |
| OpenBook.NoFillShowsNothing | hermes_quant/portfolio/state.py:184-212 | a refusal to fill, an incomplete or unreadable record, or one older than the record that holds its symbol leaves the book alone |
| OpenBook.LatestFillDecides | hermes_quant/portfolio/state.py:203-226 | a complete fill no older than any other shows its symbol iff its target is not zero, and touches no other symbol |
| OpenBook.FamilyOnlyHides | hermes_quant/react/multileg.py:857-990 | the records of a family of size zero never add a symbol to the book; written last they hide exactly the names that count, the underlying among them when the net or the share price is not zero |
| OptionsGate.AdmittedIff | hermes_quant/risk/options_gate.py:480-1069 | the gate admits a bucket and a size iff the order meets every rule at once: greeks there, no doubled strategy, collateral for its shorts, money and reserve and portfolio caps at the structural and at the admitted size, deltas, a week to expiry, no print against it, and assignment within its cap |
| OptionsGate.TargetIs | hermes_quant/risk/options_gate.py:854-876 | the money to risk is a tenth of NAV times the edge, or times a quarter where that is none or wider; the step it is rounded to never rounds it |
| OptionsGate.ContractsAreLargest | hermes_quant/risk/options_gate.py:317-366 | the size is the largest number of contracts that money pays for, the wheel's also held to its shares |
| OptionsGate.MarginTells | hermes_quant/risk/options_gate.py:290-315 | what the broker holds and what assignment would cost, bucket by bucket, in money |
| OptionsGate.GreeksAdd | hermes_quant/options/data.py:280-320 | the greeks of two lists of legs together are the sum of theirs |
| OptionsGate.LegTells | hermes_quant/options/data.py:280-320 | a contract counts a hundred times its ratio and the size, negated when sold; a share cover counts its shares |
| OptionsGate.UnitsTell | hermes_quant/risk/options_gate.py:580-640 | the structural count is the contracts sold, half of them for a balanced condor, and one where none is sold |
| OptionsGate.UnfundedAdmitsNothing | hermes_quant/risk/options_gate.py:480-1069 | without buying power and without a lot of shares every order is refused |
| OptionsGate.WithinCapsAtSize | hermes_quant/risk/options_gate.py:753-1010 | gamma, vega and delta of the portfolio with the order, and the order's decay, are within their caps at the size admitted |
| OptionsGate.NeverSizesUp | hermes_quant/risk/options_gate.py:317-366 | what the admitted contracts put at risk together is at most 2.5% of a positive NAV |
| OptionsGate.AdmittedIsSecured | hermes_quant/risk/options_gate.py:148-315 | an admitted put is secured by cash and a credit structure by its whole loss at the admitted size, a debit structure by the price of one unit, calls by shares for the structural count |
| OptionsGate.CoveredAtSizeIff | hermes_quant/risk/options_gate.py:317-366 | admitted calls are covered at their size iff the order is the wheel's or the size target does not reach one contract past the shares |
| OptionsGate.MoreFundsSameOrder | hermes_quant/risk/options_gate.py:480-1069 | but for the wheel, more buying power and more shares change neither bucket nor size of an order that is admitted |
| OptionsRecipes.FundedIff | hermes_quant/options/recipes.py:304-1180 | the gate admits some structure the producer builds iff there is buying power or a lot of shares |
| OptionsRecipes.CallsOutrunShares | hermes_quant/risk/options_gate.py:148-200 | with shares for one contract, calls of any number of contracts can be admitted |
| OptionsRecipes.DebitsOutrunPower | hermes_quant/risk/options_gate.py:290-315 | with buying power for one debit spread, any number of them can be admitted |
| OptionsPayoff.GateLossScales | hermes_quant/risk/options_gate.py:263-287 | the gate's loss is its loss per share for each share of each contract |
| OptionsPayoff.SpreadLossIff | hermes_quant/options/recipes.py:606-634 | over all prices at expiry, the gate's loss is the worst loss of a built spread iff the sold leg is quoted no lower than the bought one |
| OptionsPayoff.CondorLossIff | hermes_quant/options/recipes.py:1046-1086 | the gate's loss is the worst loss of a built condor iff its sides are not inside out |
| RailLock.ConcurrentCapHolds | hermes_quant/autonomous.py:3784-3823 | over any number of overlapping ticks, deaths and timeouts the book is at most the larger of its start and the cap, plus what entered uncounted |
| RailLock.ConcurrentCapExact | hermes_quant/autonomous.py:116-222 | with no funds for options, no hidden fill and no lingering symbol, nothing enters uncounted or is hidden, and overlapping ticks together never hold more than the larger of the start and the cap |
| RailLock.FailedReadOpensNothing | hermes_quant/autonomous.py:3362-3434 | a tick whose book read failed leaves only what was there at entry or entered uncounted |
| RailLock.HiddenFillsPile | hermes_quant/autonomous.py:4080-4092 | fills behind reactor exceptions bring the book of one tick to any size, whatever the cap |
| RailLock.ZeroExitsStopNothing | hermes_quant/autonomous.py:2923-2960 | when every exit raises or is answered with a realised zero, the sweep reports nothing stopped, whatever became of the positions |
| RailLock.LingeringPasses | hermes_quant/autonomous.py:3556-3565 | a full book takes one more when an exit comes back without a realised size, is counted as stopped, and the position stays |
| RailLock.MaskedPasses | hermes_quant/autonomous.py:3362-3434 | if the gate were shown funds, a family on a held symbol hides it and the next tick takes one symbol more than the cap |
| RailLock.ExemptPasses | hermes_quant/autonomous.py:3736-3745 | if the gate were shown funds and two fires allowed, a family and an equity fire on one new symbol bring even the book as read above the cap within one tick |
| RailLock.CapHoldsIff | hermes_quant/autonomous.py:3784-3823 | the cap bounds the book on every run the surroundings permit iff ticks are dry, or no funds reach the options gate and neither a hidden fill nor a lingering symbol is possible |
| RailLock.CapAsWritten | hermes_quant/autonomous.py:3717-3735 | with the funds the tick does pass, none, the cap bounds the book iff ticks are dry or neither a hidden fill nor a lingering symbol is possible, options on or off |
| RailLock.DecidersWereCleared | hermes_quant/autonomous.py:3248-3324 | any tick that is deciding saw a basis above minus the threshold at its own check |
| RailLock.TrippedFiresNothing | hermes_quant/autonomous.py:567-660 | from a trip or an unreadable file until a reset, a tick that had not begun its check never enters and never fires |
| RailLock.CheckDecides | hermes_quant/autonomous.py:3248-3324 | a set or unreadable switch stops a check; else a basis at or below minus the configured threshold, ten percent where that is missing or not positive, keeps the tick out and, live, sets the switch, and a better one lets it on |
| RailLock.BreachHaltsAll | hermes_quant/autonomous.py:3290-3324 | from a live check that finds a breach, over every run until a reset, no process outside its check enters or fires |
| RailLock.DryTicksLeaveTheSwitch | hermes_quant/autonomous.py:3290-3312 | dry ticks never change the switch |
| RailLock.HandsOnTheSwitch | hermes_quant/autonomous.py:567-660 | a trip by hand or damage to the file halts the same way, and after a reset the next check without a breach goes on |
| RailLock.FailedReadIsMarked | hermes_quant/autonomous.py:3362-3434 | a read that fails before or after the count marks the tick, and any other counts what it shows less what was stopped |
| OptionsClose.NetCloseCostLoop | hermes_quant/autonomous.py:1868-1911 | the loop sums signed marks and holds the whole composite when one leg cannot be marked |
| OptionsClose.CostIfMarkable | hermes_quant/autonomous.py:1884-1907 | a cost exists iff every leg can be marked |
| OptionsClose.ShortFirstKeepsCost | hermes_quant/autonomous.py:2251-2257 | short legs first, stored order otherwise, and the same net cost as the stored order |
| OptionsClose.CostIsDebitIff | hermes_quant/autonomous.py:1952-2004 | for distinct contracts the swept cost is the built order's net debit at all marks iff every leg's side matches its intent |
| OptionsClose.ClosingLegTells | hermes_quant/autonomous.py:1952-2004 | a leg is closed on its own contract, against its open intent or else its side, and always to close |
| OptionsClose.UnchangedMarksAreFlat | hermes_quant/autonomous.py:1914-1949 | at the opening marks loss and gain are zero |
| OptionsClose.LossAndGainAreProfit | hermes_quant/autonomous.py:1914-1949 | loss and gain are the two sides of one profit, as fractions of the credit or debit; gain is judged for credits only |
| OptionsClose.OneRailAtATime | hermes_quant/autonomous.py:2221-2246 | on a credit structure stop and take-profit cannot both hold with non-zero thresholds |
| OptionsClose.DueIff | hermes_quant/autonomous.py:1914-1949 | a row is past the stop iff it can be priced and has lost the threshold's part of its credit or debit, and past the take-profit iff it is a credit that has kept that part |
| OptionsClose.StopSweep | hermes_quant/autonomous.py:2073-2207 | an id is closed iff some row of it that has lost the threshold, in money, ends filled; fires, silences and errors are the numbers of such rows by how they ended, and of rows that raised |
| OptionsClose.TakeSweep | hermes_quant/autonomous.py:2260-2361 | the same for credits that have kept the threshold, skipping whatever the stop sweep closed |
| OptionsClose.NeverClosedTwice | hermes_quant/autonomous.py:2260-2284 | the two sweeps of a tick close a composite at most once between them, and what the stop closes could be fully marked |
| PlaybookWeekly.EstablishingLeg | scripts/quant-playbook-weekly.py:391-451 | returns the first fill of the last maximal block of held-side fills of that asset and account, none iff there is no such fill |
| PlaybookWeekly.AnchorMovesIffReopened | scripts/quant-playbook-weekly.py:400-429 | one more fill moves the anchor iff it is on the held side and follows a flat or a flip |
| PlaybookWeekly.HeldTells | scripts/quant-playbook-weekly.py:320-451 | a fill is held-side iff it is of the asset and account and buys into a long or sells into a short, by its side or else by the sign of its target or size |
| PlaybookWeekly.FiredThisWeek | scripts/quant-playbook-weekly.py:529-554 | true iff the journal can be read and an armed close of the key is in it |
| PlaybookWeekly.RunWeekly | scripts/quant-playbook-weekly.py:752-945 | the per-position loop is the fold of one position's verdict |
| PlaybookWeekly.VerdictTells | scripts/quant-playbook-weekly.py:752-945 | the exact condition of each verdict: only an armed run orders, and not where a readable journal shows an armed close of the key |
| PlaybookWeekly.FillsOnceIff | scripts/quant-playbook-weekly.py:788-804 | over any sequence of runs at most one order fills per symbol, play and Monday iff every later due close finds a readable journal with an earlier close in it |
| PlaybookWeekly.RecordedOnceIff | scripts/quant-playbook-weekly.py:529-554 | the journal holds at most one successful close per key iff none is written under an unreadable journal after another one |
| PlaybookWeekly.ClosedOncePerWeek | scripts/quant-playbook-weekly.py:788-804 | with every journal read and write sound, at most one close fills per key over any sequence of runs, and the journal shows it |
| PlaybookWeekly.ClosesTwiceIff | scripts/quant-playbook-weekly.py:142-152 | in two armed runs of a week a due close fills twice iff the first write was lost or the second read failed, and is journalled twice iff only the read failed |
| PlaybookWeekly.RetriedUntilClosed | scripts/quant-playbook-weekly.py:788-804 | after any runs, an armed run tries a due close iff no earlier close of the key was written down or the journal cannot be read |
| PlaybookQuarterly.TargetsAreLatest | scripts/quant-playbook-quarterly.py:262-283 | the loop keeps each asset's target of greatest time, the last of an equal run |
| PlaybookQuarterly.SupersededChangesNothing | scripts/quant-playbook-quarterly.py:270-283 | deleting a superseded target from any log changes neither positions nor cash |
| PlaybookQuarterly.TargetCost | scripts/quant-playbook-quarterly.py:333-365 | a target position costs its fraction of the initial cash, or its share count at entry, and is marked at entry |
| PlaybookQuarterly.HeldIff | scripts/quant-playbook-quarterly.py:317-355 | a latest target is a position iff it is not flat, has a usable entry and a quantity that is not nothing |
| PlaybookQuarterly.TradesAddUp | scripts/quant-playbook-quarterly.py:284-312 | for every log cash is the initial cash less buys, plus sells, less fees, and an asset's quantity and cost are its buys less its sells |
| PlaybookQuarterly.LoadPositions | scripts/quant-playbook-quarterly.py:228-367 | cash, all cost bases and fees make up the initial cash, for every log |
| PlaybookQuarterly.TargetsAloneAreWorthInitial | scripts/quant-playbook-quarterly.py:317-365 | a log of targets alone, marked at entry, is worth exactly the initial cash |
| PlaybookQuarterly.ComputeMetrics | scripts/quant-playbook-quarterly.py:492-522 | sector totals sum to net exposure, the top position is a largest one, and weighted beta lies between the least and greatest beta |
| PlaybookQuarterly.SectorTotals | scripts/quant-playbook-quarterly.py:512-515 | each sector's total is that of its own positions, and there is one iff it has any |
| PlaybookQuarterly.GrossAndNet | scripts/quant-playbook-quarterly.py:497-503 | gross is longs less shorts and net is both together |
| TailReader.ReadTail | hermes_quant/tools.py:45-74 | raises iff a line of the kept window is no text; otherwise a suffix of the file's records of at most n, exactly the last n when the file fits the window, and all of the window's whole lines when there are fewer |

## Left out

- The step machine follows one proposal id. Statements and lines are keyed by id, but all ids share the last line of the file: a fragment torn by one id is glued to the next append of any id, and one more append makes the rebuild refuse for all (`ProposalBus.GluedLineIsLost`). "No append on a torn tail", the clean-run hypothesis, is therefore about the appends of every id; appends of other ids onto a clean tail change nothing here.
- The clock is a free answer to each test, late or in time; that it only moves forward is not used, and the runs of `ApprovalTtl` that fire late do respect it.
- Rebuilding the index while a method is in flight: the bus is read before the transaction opens, so `Recover` is a step with no method in flight.
- ProposalStore.Store.RecordExecution: after it has written on a pending row, which its one caller never asks for, the other operations' contracts say nothing about the store.
- ProposalStore.Store.LegacyApprove: a lost compare-and-set cannot happen in a sequential call; the step machine has that branch.
- ProposalStore.Store.Reject: same as LegacyApprove.
- ProposalStore.Store.constructor: creating directories and migrating the schema are not modelled.
- The JSON text of a proposal: the store is proved for any codec that prints a record as one line and reads it back, and the concrete one here is simpler than JSON. A size is a finite 64-bit float, by its bits.
- IsoTime.ParseIso: covers the fixed `%Y-%m-%dT%H:%M:%S` form with an optional Z; the library parser's leniency (one-digit fields) is not modelled.
- Multi-leg proposals inside the store: their payload is one opaque field that no transition changes.
- KillSwitchBasis.Drive: the exact condition is on the batches (agreeing times, an additive pre-pass); that each way to break it changes some answer is proved, not that it changes every one.
- KillSwitchTimes.AnswerSafeIff: speaks of fills of the paper-default account above dust; other fills are not covered.
- NavShare.NavMattersIff: both NAVs are positive; a missing or non-positive one makes the code fall back to the fraction itself.
- KillSwitchBasis.Basis.Replace: after an in-place rewrite that leaves the inode and the last 4096 consumed bytes alone, which the code cannot see, nothing is promised; the digest stands for the bytes themselves.
- KillSwitchBasis.Basis.LoseCheckpoint: a damaged sidecar is one that does not parse; a well-formed but wrong one is not modelled.
- An account literally named `_deferred` collides with the namespaced carry key in the code; the model keeps the two kinds of key apart.
- Settlement.FoldConserves: numeric text in size fields (which the code converts) is not modelled; a field is absent, unreadable or a number.
- The post-loss cooldown sidecar, audit events and logging have no effect on the modelled results.
- TickRails.RunWatchlist: the advisor, the silence gate, the returns behind the variance haircut, the choice of an options structure and of its contracts, and the reactors are free inputs; building a perception frame cannot be told from an advisor failure, and an options attempt that is switched off, abstains or fails before the gate is one case.
- OptionsGate.UnfundedAdmitsNothing: the risk profile is the default one, figures are finite, contract symbols parse, and the earnings guard's verdict is an input; the refusals of the code for non-finite figures and unparseable symbols are left out, as are its report of scaled legs and the equity gate.
- OptionsRecipes.FundedIff: the builders are given the contracts they choose from the chain; the choice, and the storing of the proposal, are not modelled.
- OpenBook.Reconstruct: reading and splitting the file, the reactor, account and `asof` filters (which the rail does not set) are left out; execution times are ranked as their texts are.
- TickRails.SizeWithinBounds: that the admissibility check only shrinks what it admits is a premise, since that code is a separate oracle.
- The no-fill classification of a reactor record (`_reactor_record_is_nofill`) is the reactor's answer in the watchlist loop; it is one boolean expression.
- The per-position stop sweep's own arithmetic and tranches: which exits it fires and how each comes back is an input of `Acquire`; what is thereby reported stopped is computed.
- RailLock.ConcurrentCapHolds: the lock branches that yield unguarded on an infrastructure error are taken never, and ticks are the only writers of the book.
- OptionsClose.StopSweep: decomposing a composite instead of closing it counts as closed; minting and routing the close order is an input.
- OptionsClose.ShortFirstKeepsCost: legs are not claimed to be closed in that order; the built order follows the stored legs.
- PlaybookWeekly.RunWeekly: the exit rules and market data are inputs, halts and empty portfolios end the run before the loop and are left out.
- PlaybookQuarterly.LoadPositions: traded positions are given by the quantity and cost maps; their marks and the list order are not.
- PlaybookQuarterly.ComputeMetrics: flags and rebalance proposals are not modelled.
- Floating-point rounding and NaN; configuration files; file locking and fsync; the other scripts and the advisor, which carry only easy claims.
