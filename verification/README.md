# Verified model of the agent's shared state

This project models, in Dafny, the parts of the repository that decide whether real money may be risked, and the state those
decisions rest on. Each module carries the name of the thing it models; the imperative parts of the program are classes and
methods proved against specification functions, and the main results are lemmas over every input, every run or every reachable state.

`dafny verify dfyconfig.toml` checks the whole project.

## What is modelled

**The central risk ledger** (`risk_book.ts`, `account_governance.ts`, `account_governance_store.ts`, `risk_authority.ts`,
`risk_bridge.rs`). A durable key-value store holds one access policy and one book: entries, no-reserve fences, and five redundant
aggregates. Commands (reserve, begin post, resolve, release unsent, install, govern, lower the campaign limit, new session) are atomic
transactions. Returning from a transaction commits even when the answer is a refusal, so a census is charged on the way to most
refusals; only a throw rolls back.

- `Amounts`, `RiskKeys`: the fixed-point texts and the keys. `Governance`, `GovernanceStore`: the policy, its projection and its
  writers. `RiskBook`: every ledger transaction as a function of the stored state. `Sums`, `Collections`: finite sums and sets.
- `Conservation`, `Progress`, `Commands`, `Posting`, `Installation`: what one transaction keeps.
- `Runs`: an installation's whole state, its commands, and runs as arbitrary interleavings of commands by arbitrary callers.
  `RunTheorems`, `Fences`, `Sequencing`, `PolicyRuns`: the safety theorems over runs.
- `Campaign`, `CampaignRuns`, `CampaignBound`: the bound on consumed loss, by a potential (losses of released entries plus
  reservations of the others), under the assumption that reported losses are honest.
- `Clock`, `ClockExample`: the one way an entry stops being valid. `Authority`: summaries, and when a committed release or resolution
  is confirmed. `Throws`, `Readability`, `Budgets`, `Releases`: exactly when a command throws, when it leaves the book readable, when a
  policy can be reserved against, and when an occupancy can be returned. `LossOwners`: whose losses a book records. `LedgerExamples`,
  `LossExamples`: runs from empty storage that meet the exceptions.
- `RiskChecks`, `Storage`: the same transactions as the loops and in-place writes of the source. `Storage.DurableStorage.Handle`
  leaves exactly the state and gives exactly the answer of `Runs.Step`, which is what carries the theorems to the imperative form.
- `Bridge`: the native client that reserves, reads a new census and fences, beside other callers.

**The admission gate** (`runtime_session.ts`): `Admission` for slots and the queue of waiting reads, `Promises` for pending replies.

**Paging over accounts** (`portfolio.rs`): `Ordering`, `Pagination`, `Rollup`.

**The mailbox poller** (`github_mailbox.rs`): `Mailbox`, with crashes at every point, a lost checkpoint, and other people commenting.

**Source windows** (`source_capture.rs`): `SourceWindow`, with failures, restarts and rows appearing between readings.

**Exact kernels**: `BookSweep` (`microstructure.rs`, `query.rs`), `Sizing` (`candidate.rs`, `scenario.rs`), `Drawdown`
(`scenario.rs`), `Covariance` (`statistics.rs`), over exact reals, with `Exact` for products that stay opaque to the solver.

**Two smaller ones**: `Architecture` (the dependency search of `check_architecture.py`) and `FinanceWindow` (`finance_window.rs`).

## How it is modelled

- Stored aggregates are natural numbers of billionths. The texts are a separate layer: reading back a printed value gives the value,
  or nothing from 10^15 whole units on (`Amounts.UnitsOfAmount`), and equal texts mean equal values (`Amounts.AmountCanonical`), so
  comparing and reading texts becomes comparing values and asking whether they are `Parseable`. Texts that callers supply stay strings.
- Integers are unbounded and checked where the source asks for safe integers; the book's sequence saturates as a double does at 2^53.
- A SHA-256 digest of a request stands for the request itself, that is, digests are taken to be injective.
- Policies, censuses, proofs, clocks, generations and the order of commands are arbitrary: whatever a caller may send, it may send at
  any moment. The policy snapshot handed to a reservation is arbitrary too, so a stale one is covered.
- `Campaign*` assumes honest evidence and nothing else: each order has one true loss, at most its `loss_usd`; no other loss is
  recorded for its account; and by the time an entry is released its loss is. `CampaignBound.HonestRun` says this precisely, and
  `CampaignBound.QuietRunIsHonest` gives the simplest such runs.
- The mailbox agent comments under the owner's own account, as the source takes responses only from there.

## What the proofs brought to light

The model follows the code; where the code is narrower than one might expect, a lemma says exactly when.

1. A post may be authorized in the very millisecond of its reservation, but an entry posted then is no longer valid: it can be neither
   resolved nor released and its occupancy stays for ever (`Clock.StepValid`, `Clock.AtCreationFreezes`, `Clock.FrozenForEver`, and the
   concrete `ClockExample.PostAtCreationInvalidates`, from a state that four commands lead to: `LedgerExamples.HeldStateInv`). Under a
   strict clock every stored entry stays valid (`Clock.StrictClockKeepsValid`).
2. A hold resolved to UNKNOWN without a post can never be released (`Fences.StrandedForEver`, and concretely `LedgerExamples.HoldStrands`).
   With the entries of item 1 these are all: as long as the book can be read (item 3), every other occupancy can be returned, in an open
   session and at a later moment (`Releases.ReleasableExactly`).
3. Consumed loss of 10^15 or more cannot be read back. A new reservation or a terminal release that nothing refuses throws exactly when
   its own census brings it there, and is rolled back (`Throws.RunThrowsExactly`, and concretely `LossExamples.LargeLossThrows`). Every
   other transaction that brings it there commits, be it a repeated HELD, a late refusal or an authorized post, and then the book is never
   written again (`Sequencing.UnreadableIsFrozen`): such a post can be neither resolved nor released (`Readability.PostKeepsReadable`, and
   concretely `LossExamples.FreezingPost`). The state before a command tells exactly whether the book stays readable
   (`Readability.StepReadable`, over runs `Readability.RunStaysReadable`). Losses are recorded for registered real accounts only
   (`LossOwners.RunOwned`), so all this takes two of them (`LossOwners.OneAccountNeverThrows`); with honest evidence none of it happens
   (`CampaignBound.CampaignHolds`, `CampaignBound.HonestNeverThrows`).
4. A post's expected sequence is compared after its own census has been charged (`Posting.ExpectedSequence`), so it must anticipate a
   loss that this census is the first to report. The claim that nothing happens between a hold and its post still holds for a post
   that expects the hold's sequence (`Sequencing.ReceiptFences`).
5. An unsent release that only leaves a fence is durable but answered as failed while the policy still has revision 0
   (`Authority.UnsentReadback`, and concretely `LedgerExamples.FirstReleaseUnconfirmed`); so is any release or resolution that the
   sequence has no room for, or whose loss cannot be read (`Authority.ResolveReadback`).
6. The reader of the caps takes a policy's total as the ceiling of each account's own cap. So a valid policy with no real account, or
   with one whose own cap, traded or not, exceeds the total, refuses every reservation (`Budgets.BudgetedExactly`,
   `Budgets.HeldNeedsReservable`, and concretely `LedgerExamples.TightPolicyIsRefused`).
7. Paging skips a row with an empty id, and repeats one whose id sorts above U+10FFFF, at the time of a page's last row
   (`Pagination.FilterIsOrder`, `Pagination.EmptyIdIsSkipped`, `Pagination.HighIdIsRepeated`).
8. A venue id with a bar in it makes a cursor that is never accepted again, so its window is blocked (`SourceWindow.CursorRoundTrip`,
   `SourceWindow.PendingIsKept`); a full page that ends on a row without an id leads nowhere and is not taken in
   (`SourceWindow.Source.Capture`).
9. When the clock steps back, the finance window forgets every earlier attempt, so a failed one can vanish from a clean window
   (`FinanceWindow.KeptExactly`, `FinanceWindow.ForgottenLeavesNoTrace`, and concretely `FinanceWindow.TicksAreClean`); an attempt
   since which it has not stepped back cannot (`FinanceWindow.NothingForgotten`).
10. A listing of the mailbox that would bring a thousand comments is refused. So once a backlog, or without a ledger the whole thread, is
   that long, no poll ever answers again (`Mailbox.Agent.Poll`, `Mailbox.NeverListed`): a lost checkpoint of a long thread is not
   recovered from.

## Model

| member | source | states |
|---|---|---|
| Amounts.UnitsOfAmount | cloudflare/okx-mcp/src/risk_book.ts:126-136 | Reading back the printed text of any value below 10^24 gives the value: `units(amount(v)) = v`. |
| Amounts.AmountCanonical | cloudflare/okx-mcp/src/risk_book.ts:131-136 | Two values with the same text are the same value, so comparing aggregate texts compares values. |
| Amounts.UnitsParseable | cloudflare/okx-mcp/src/risk_book.ts:121-130 | Whatever a text reads as has itself a readable text (it is below 10^24). |
| RiskKeys.AccountKeyInjective | cloudflare/okx-mcp/src/risk_book.ts:156-158 | An account key determines venue and uid. |
| RiskKeys.RiskKeyInjective | cloudflare/okx-mcp/src/risk_book.ts:159-163 | A reservation key determines venue, uid, run and intent: the length-delimited form has no separator collision. |
| RiskKeys.NoReserveAddressExact | cloudflare/okx-mcp/src/risk_book.ts:183-193 | The no-reserve address check accepts a key exactly when it is the reservation key of that okx/real account, that intent and some valid run id. |
| Governance.CheckStrategies | cloudflare/okx-mcp/src/account_governance.ts:26-42 | The pass with a set of seen ids and a running total accepts exactly lists of at most 32 valid strategies with distinct ids whose enabled caps fit the account cap. |
| Governance.ApplyRows | cloudflare/okx-mcp/src/account_governance.ts:130-141 | The pass that takes each named account out of a map succeeds exactly when the rows name every account once and each fits, and then lays each row over the account it names. |
| Governance.ReviseGovernance | cloudflare/okx-mcp/src/account_governance.ts:124-145 | Computes the declarative revision: same identities and campaign, next revision, rows' order; nothing otherwise. |
| Governance.ProjectRiskPolicy | cloudflare/okx-mcp/src/account_governance.ts:147-161 | The loop computes the projected policy: the cap of every registered real account, enabled or not; none if one is unverified. |
| Governance.AccountLimitsKeys | cloudflare/okx-mcp/src/account_governance.ts:149-155 | The projected caps are keyed by exactly the registered real accounts. |
| Governance.AccountLimitsValue | cloudflare/okx-mcp/src/account_governance.ts:149-155 | Under each real account's key stands that account's own cap. |
| GovernanceStore.ChangeSucceeds | cloudflare/okx-mcp/src/account_governance_store.ts:57-168 | Whatever a writer makes of a valid policy is valid, keeps every identity, verification and the campaign limit, and raises the revision by one unless it is the same value. |
| GovernanceStore.PauseSucceeds | cloudflare/okx-mcp/src/account_governance_store.ts:131-144 | A pause keeps the policy valid although it is not checked again before it is returned. |
| GovernanceStore.IdentitiesOfRows | cloudflare/okx-mcp/src/account_governance.ts:124-145 | A revision by rows loses no account and changes no identity. |
| Conservation.SaveSucceeds | cloudflare/okx-mcp/src/risk_book.ts:209-225 | In a balanced book saving a fitting entry never throws. |
| Conservation.SaveConserves | cloudflare/okx-mcp/src/risk_book.ts:209-225 | Saving an entry keeps all five redundant aggregates equal to the sums over the entries that still occupy. |
| Conservation.TotalAfterSave | cloudflare/okx-mcp/src/risk_book.ts:209-225 | Each such sum changes by exactly what the source adds to its aggregate, and every other sum stays. |
| Conservation.ReadableExactly | cloudflare/okx-mcp/src/risk_book.ts:164-165 | A sound book is readable exactly while its consumed loss is below 10^15 and its sequence is a safe integer. |
| Conservation.CostlessWhenIdle | cloudflare/okx-mcp/src/risk_authority.ts:76-76 | An account without active entries occupies nothing and one with any occupies something. |
| Progress.ChargeFacts | cloudflare/okx-mcp/src/risk_book.ts:226-231 | Charging a census raises consumed loss by exactly the growth of the recorded losses, and the sequence exactly when there is some. |
| Progress.ChargeSound | cloudflare/okx-mcp/src/risk_book.ts:226-231 | Charging a census keeps the book sound, also when the transaction goes on to a refusal and commits. |
| Progress.SaveForward | cloudflare/okx-mcp/src/risk_book.ts:209-225 | Saving an entry moves the book only forward. |
| Progress.LowerSound | cloudflare/okx-mcp/src/risk_book.ts:171-175 | Lowering the campaign limit keeps the book sound: the new limit still covers consumed and reserved loss. |
| Progress.FenceSound | cloudflare/okx-mcp/src/risk_book.ts:423-431 | Writing a no-reserve fence keeps the book sound. |
| Progress.ForwardTwice | cloudflare/okx-mcp/src/risk_book.ts:209-231 | Forward moves compose: entries only advance, fences stay, the sequence rises with every change of substance. |
| Commands.ReserveSafe | cloudflare/okx-mcp/src/risk_book.ts:276-377 | RESERVE in every case: sound book, forward only, HELD means what it says, stale sessions change nothing, and the one throw is a census whose loss cannot be read back. |
| Commands.ReplayIsSame | cloudflare/okx-mcp/src/risk_book.ts:333-337 | A repeated reservation answers HELD only for the very same order still held, with the stored entry. |
| Commands.AdmissionThrows | cloudflare/okx-mcp/src/risk_book.ts:338-345 | The admission of a sound book throws exactly when the charged consumed loss can no longer be read. |
| Commands.CreatedAccount | cloudflare/okx-mcp/src/risk_book.ts:338-376 | A newly created hold respects the campaign, its account's order cap, instrument list and strategy cap, every account cap and the global cap. |
| Posting.BeginPostSafe | cloudflare/okx-mcp/src/risk_book.ts:511-591 | BEGIN_POST in every case: sound, forward, never throws; an authorization rests on a held entry of the current revision, a trading account, all caps and the exact existing loss. |
| Posting.ResolveSafe | cloudflare/okx-mcp/src/risk_book.ts:448-506 | RESOLVE in every case: sound, forward; an update moves exactly the named entry, and a release rests on a terminal record newer than the post. |
| Posting.ReleaseUnsentSafe | cloudflare/okx-mcp/src/risk_book.ts:399-446 | RELEASE_UNSENT in every case: sound, forward, never throws; once it answers UPDATED the key is released or fenced. |
| Posting.ExpectedSequence | cloudflare/okx-mcp/src/risk_book.ts:552-554 | The expected sequence is compared after the census is charged, so it is the stored one, or one more when the census itself records loss. |
| Installation.InstallInv | cloudflare/okx-mcp/src/account_governance_store.ts:28-55 | Installing starts a sound book with the policy's own campaign limit, and never on used storage. |
| Installation.GovernInv | cloudflare/okx-mcp/src/account_governance_store.ts:57-75 | Every policy mutation keeps policy and book fitting each other. |
| Installation.CampaignInv | cloudflare/okx-mcp/src/account_governance_store.ts:91-108 | Lowering the campaign limit keeps policy and book naming one limit. |
| Runs.StepInv | cloudflare/okx-mcp/src/risk_authority.ts:53-256 | Every command of every caller keeps the invariant and moves book and policy only forward. |
| Runs.RunInv | cloudflare/okx-mcp/src/risk_authority.ts:53-256 | The invariant holds in every reachable state. |
| Runs.RunLater | cloudflare/okx-mcp/src/risk_book.ts:209-591 | Along every run entries only advance, fences and losses stay, the policy revision rises with every change of value. |
| RunTheorems.RunConserves | cloudflare/okx-mcp/src/risk_book.ts:209-231 | Conservation: in every reachable state, book totals, account amounts, account records (count, USD, USDT) and strategy amounts are the sums over entries not released, and consumed loss is the sum of recorded losses. |
| RunTheorems.RunReadable | cloudflare/okx-mcp/src/risk_book.ts:164-165 | A reachable book is readable exactly while consumed loss is below 10^15 and the sequence is safe. |
| Throws.ReserveThrowsExactly | cloudflare/okx-mcp/src/risk_book.ts:321-338 | RESERVE throws exactly when nothing refuses it before, its key has no entry, and recorded plus newly reported loss reaches 10^15. |
| Throws.ResolveThrowsExactly | cloudflare/okx-mcp/src/risk_book.ts:462-499 | RESOLVE throws exactly when it is a terminal release that nothing refuses and its census brings the loss there. |
| Throws.RunThrowsExactly | cloudflare/okx-mcp/src/risk_book.ts:209-231 | In every reachable state a command throws exactly when that could be seen beforehand, and then it changes nothing. |
| LossExamples.LargeLossThrows | cloudflare/okx-mcp/src/risk_book.ts:338-338 | A run from empty storage, with two accounts connected, whose fifth command is a reservation that throws and leaves the state as it was. |
| Readability.StepGrows | cloudflare/okx-mcp/src/risk_book.ts:209-231 | What every command adds to the sequence and to the consumed loss, told from the state before it: first and repeated reservations, late refusals, throws, posts, resolutions, unsent releases and lowerings. |
| Readability.StepReadable | cloudflare/okx-mcp/src/risk_book.ts:164-165 | From every reachable state with a readable book, a command leaves it readable exactly when the book has room for what the command adds. |
| Readability.RunStaysReadable | cloudflare/okx-mcp/src/risk_book.ts:164-165 | From a readable book on, a later state of the run is readable exactly when every command in between had room. |
| Readability.PostKeepsReadable | cloudflare/okx-mcp/src/risk_book.ts:552-585 | An authorized post leaves a readable book exactly when recorded and newly reported loss stay below 10^15 and the sequence it expects is not the last safe integer. |
| LossExamples.FreezingPost | cloudflare/okx-mcp/src/risk_book.ts:552-585 | A run from empty storage in which a post is authorized and its own census makes the book unreadable, after which no command writes it. |
| LossOwners.RunOwned | cloudflare/okx-mcp/src/risk_book.ts:226-255 | In every reachable state losses are recorded for registered real accounts only. |
| LossOwners.OneAccountNeverThrows | cloudflare/okx-mcp/src/risk_book.ts:226-231 | With at most one registered real account no ledger command throws, and only its sequence can make the book unreadable. |
| Budgets.BudgetedExactly | cloudflare/okx-mcp/src/risk_book.ts:256-270 | What a valid policy projects to has a budget exactly when some real account is registered and no real account's own cap exceeds the policy's total. |
| Budgets.HeldNeedsReservable | cloudflare/okx-mcp/src/risk_book.ts:283-307 | Under a policy that is not so no reservation is ever answered HELD. |
| LedgerExamples.TightPolicyIsRefused | cloudflare/okx-mcp/src/risk_book.ts:256-270 | A valid policy with a trading account that nothing can be reserved against. |
| RunTheorems.HeldOnlyWhileTrading | cloudflare/okx-mcp/src/risk_book.ts:308-343 | Every HELD reply, first or repeated, is for an account that at that step is verified, enabled, not paused and lists the instrument, under the current revision. |
| RunTheorems.FirstHeld | cloudflare/okx-mcp/src/risk_book.ts:333-376 | Every stored entry goes back to one RESERVE that answered HELD under the policy of its revision. |
| RunTheorems.PostUnderHeldPolicy | cloudflare/okx-mcp/src/risk_book.ts:539-570 | Every POST_AUTHORIZED happens under exactly the policy stored when its key was first held, and its account trades under it. |
| RunTheorems.SamePolicy | cloudflare/okx-mcp/src/account_governance_store.ts:57-75 | Two states of one policy revision have one policy value. |
| Fences.RetiredForGood | cloudflare/okx-mcp/src/risk_book.ts:412-445 | Once RELEASE_UNSENT has answered UPDATED for a key, no later step of any interleaving holds it or authorizes its post. |
| Fences.EntryOrFence | cloudflare/okx-mcp/src/risk_book.ts:329-331 | No key ever has both an entry and a fence, and neither is ever removed. |
| Fences.PostedOnce | cloudflare/okx-mcp/src/risk_book.ts:555-585 | At most one POST_AUTHORIZED per key in any run. |
| Fences.EntriesOnlyAdvance | cloudflare/okx-mcp/src/risk_book.ts:462-468 | States only move forward, the order of an entry never changes, and RELEASED is absorbing. |
| Fences.ReleasesAreLawful | cloudflare/okx-mcp/src/risk_book.ts:435-502 | Every release is an unsent one from HELD or POSTED, a terminal one whose census was read after the post, or a rejected hold. |
| Fences.StrandedForEver | cloudflare/okx-mcp/src/risk_book.ts:462-477 | A hold resolved to UNKNOWN without a post keeps its occupancy for ever: no continuation releases it. |
| Releases.ReleasableExactly | cloudflare/okx-mcp/src/risk_book.ts:462-502 | Some command releases an entry exactly when it is not released, still valid, and was posted or is still held: the two families that keep their occupancy for ever are the only ones. |
| LedgerExamples.HeldStateInv | cloudflare/okx-mcp/src/risk_book.ts:209-225 | Four commands lead from empty storage to a concrete installation holding one reservation; the post at the creation time starts from its book. |
| LedgerExamples.HoldStrands | cloudflare/okx-mcp/src/risk_book.ts:463-504 | On that state a RESOLVE to UNKNOWN is answered UPDATED and strands the hold. |
| Sequencing.SequenceFences | cloudflare/okx-mcp/src/risk_book.ts:209-231 | The sequence never falls, and two states of one sequence agree on entries, occupancy, losses, limit and fences. |
| Sequencing.StaleSession | cloudflare/okx-mcp/src/risk_book.ts:323-325 | A ledger command of any session but the current one changes nothing. |
| Sequencing.UnreadableIsFrozen | cloudflare/okx-mcp/src/risk_book.ts:164-165 | A book that cannot be read is never written again. |
| Sequencing.ReceiptFences | crates/okx-agent/src/risk_bridge.rs:74-110 | Between a HELD reply and the post expecting its sequence nothing reserves, releases, records loss, lowers the limit or fences; nor does the post record loss. |
| Campaign.ConsumedBetween | cloudflare/okx-mcp/src/risk_book.ts:226-231 | When recorded losses are honest, consumed loss lies between what released entries and what all entries have lost. |
| CampaignRuns.ReleasedBound | cloudflare/okx-mcp/src/risk_book.ts:475-502 | A terminal release with an honest record keeps losses of released entries plus reservations of the others within the campaign limit. |
| CampaignRuns.LoweredBound | cloudflare/okx-mcp/src/risk_book.ts:171-175 | Lowering the limit keeps that potential within it. |
| CampaignBound.CampaignHolds | cloudflare/okx-mcp/src/risk_book.ts:171-502 | The campaign bound: with honest evidence, consumed loss is at most the campaign limit in every state of every run, through every interleaving of reserve, census loss, release and lowering. |
| CampaignBound.QuietRunIsHonest | cloudflare/okx-mcp/src/risk_book.ts:226-231 | Every run whose commands report no loss is honest, whatever else they do. |
| CampaignBound.HonestNeverThrows | cloudflare/okx-mcp/src/risk_book.ts:209-231 | With honest evidence no ledger command ever throws. |
| PolicyRuns.HeldWithinCaps | cloudflare/okx-mcp/src/risk_book.ts:346-376 | After each newly created hold every account cap and the global cap of the current policy, the campaign, the order cap and the strategy (or account) cap hold. |
| PolicyRuns.PostWithinCaps | cloudflare/okx-mcp/src/risk_book.ts:571-589 | At each authorized post all caps hold, and the reported existing loss plus the candidate's own is exactly the checked total. |
| PolicyRuns.OneOutcome | cloudflare/okx-mcp/src/account_governance_store.ts:57-75 | A receipted governance key has one outcome for ever: the same request repeats its answer, another is refused, neither changes anything. |
| PolicyRuns.OneLowering | cloudflare/okx-mcp/src/account_governance_store.ts:91-108 | The same for lowering the campaign limit. |
| PolicyRuns.CampaignOnlyFalls | cloudflare/okx-mcp/src/account_governance_store.ts:91-108 | Every stored policy is valid and names the book's own campaign limit, which starts at 10 and never rises. |
| PolicyRuns.AccountsAreForGood | cloudflare/okx-mcp/src/account_governance_store.ts:111-168 | No account is ever removed, and its id, venue, environment, uid, key and verification never change. |
| Clock.StepValid | cloudflare/okx-mcp/src/risk_book.ts:147-149 | A step keeps every stored entry valid if and only if it does not authorize a post at the creation time of its reservation. |
| Clock.RunValid | cloudflare/okx-mcp/src/risk_book.ts:147-149 | A run keeps every stored entry valid if and only if none of its steps posts at the creation time. |
| Clock.StrictClockKeepsValid | cloudflare/okx-mcp/src/risk_book.ts:556-560 | Where every post comes later than the creation of its reservation, every stored entry of every state is valid. |
| Clock.AtCreationFreezes | cloudflare/okx-mcp/src/risk_book.ts:556-560 | Whatever post is authorized is also authorized at the creation time, and then leaves an entry that is no longer valid. |
| Clock.FrozenForEver | cloudflare/okx-mcp/src/risk_book.ts:435-463 | Such an entry is never resolved and never released: its occupancy stays for ever. |
| ClockExample.PostAtCreationInvalidates | cloudflare/okx-mcp/src/risk_book.ts:556-585 | A concrete book, policy, census and proof on which this happens. |
| Authority.SummaryIsExact | cloudflare/okx-mcp/src/risk_authority.ts:66-79 | No reachable account summary finds an aggregate missing or corrupt; a readable book yields the sums over the entries. |
| Authority.UnsentReadback | cloudflare/okx-mcp/src/risk_authority.ts:195-207 | A committed unsent release is confirmed exactly when, beforehand, the sequence had room (unless the fence stood already) and a bare fence is made, or was made, under a policy changed before. |
| LedgerExamples.FirstReleaseUnconfirmed | cloudflare/okx-mcp/src/risk_authority.ts:195-207 | Right after the installation a release of an unknown key is durable and answered as failed. |
| Authority.ResolveReadback | cloudflare/okx-mcp/src/risk_authority.ts:241-253 | A committed resolution is confirmed exactly when, beforehand, the sequence had room for it and the loss it records can be read. |
| Storage.DurableStorage.Save | cloudflare/okx-mcp/src/risk_book.ts:209-225 | The writes in place compute the specified book; nothing is returned where the source throws. |
| Storage.DurableStorage.ApplyCensusLoss | cloudflare/okx-mcp/src/risk_book.ts:226-231 | Two passes over the rows compute the charged book, or leave it as it was when a loss went back. |
| RiskChecks.CheckMeta | cloudflare/okx-mcp/src/risk_book.ts:165-165 | The reduction over the accounts accepts exactly valid metadata. |
| RiskChecks.CheckCensus | cloudflare/okx-mcp/src/risk_book.ts:232-255 | The pass with the map so far accepts exactly censuses that name and report every account of the policy once, and returns what they occupy. |
| RiskChecks.Budget | cloudflare/okx-mcp/src/risk_book.ts:256-270 | The loop reads back every cap of a policy that is in order, and refuses any other. |
| RiskChecks.LayOver | cloudflare/okx-mcp/src/risk_book.ts:348-352 | The loop lays the book's occupancy over the census, refusing occupancy of an unlisted account. |
| RiskChecks.TotalUnderLimits | cloudflare/okx-mcp/src/risk_book.ts:353-357 | The loop sums the occupancy unless an account is above its cap. |
| RiskChecks.TotalUnderPolicy | cloudflare/okx-mcp/src/risk_book.ts:578-583 | The loop of the post: every occupied account needs a readable cap it does not exceed. |
| Storage.DurableStorage.ReserveRisk | cloudflare/okx-mcp/src/risk_book.ts:276-377 | Leaves the storage in, and answers with, the specified outcome; rolled back when it throws. |
| Storage.DurableStorage.BeginRiskPost | cloudflare/okx-mcp/src/risk_book.ts:511-591 | Leaves the storage in, and answers with, exactly what the specification function says for this command. |
| Storage.DurableStorage.TransitionRisk | cloudflare/okx-mcp/src/risk_book.ts:448-506 | The same for a resolution, with the terminal record charged in memory before the entry is saved. |
| Storage.DurableStorage.ReleaseUnsentRisk | cloudflare/okx-mcp/src/risk_book.ts:399-446 | Leaves the storage in, and answers with, exactly what the specification function says for this command. |
| Storage.DurableStorage.LowerRiskBookLimit | cloudflare/okx-mcp/src/risk_book.ts:171-175 | Lowers the limit exactly when the new one is positive, lower and still covers what is charged. |
| Storage.DurableStorage.LowerCampaignLimit | cloudflare/okx-mcp/src/account_governance_store.ts:91-108 | One transaction over policy and book, bound to its key. |
| Storage.DurableStorage.Initialize | cloudflare/okx-mcp/src/account_governance_store.ts:28-55 | Installs once, bound to its operation. |
| Storage.DurableStorage.MutatePolicy | cloudflare/okx-mcp/src/account_governance_store.ts:57-75 | One outcome per key, stored with the policy it made. |
| Storage.DurableStorage.Handle | cloudflare/okx-mcp/src/risk_authority.ts:53-256 | Every command leaves the storage in the state, and gives the answer, of one step of the runs the theorems are about. |
| Bridge.Worker.Request | crates/okx-agent/src/risk_bridge.rs:28-48 | An answer is the worker's own, for the step of the run at which the request was served, with others served before and after; a malformed command, a request not taken, a late, a given-up and a foreign answer each have their own error. |
| Bridge.Worker.ReserveThenFence | crates/okx-agent/src/risk_bridge.rs:56-111 | A receipt names a hold and a later post of this run, for one key and revision, on a census read anew since, between which the ledger stood still; every failure has its one cause. |
| Admission.NextKeeps | cloudflare/okx-mcp/src/runtime_session.ts:328-398 | Every event keeps the counters equal to what they count, the limits, the queue's order, and no slot idle while a read waits. |
| Admission.GateLimits | cloudflare/okx-mcp/src/runtime_session.ts:328-474 | In every reachable state readonly <= normal <= 7, inflight = normal + protective <= 8, waiters <= 100, and waiters only while seven shared or eight slots are taken. |
| Admission.AdmissionOrder | cloudflare/okx-mcp/src/runtime_session.ts:374-398 | A protective command is refused only while another holds a slot; ordinary work and fresh reads never pass a waiting read; a read is refused only at a full queue. |
| Admission.GrantsAreFifo | cloudflare/okx-mcp/src/runtime_session.ts:328-356 | Every queued read is settled at most once, and once one is granted no older one is still waiting. |
| Admission.SlotIsPassedOn | cloudflare/okx-mcp/src/runtime_session.ts:467-474 | A shared slot given up goes to the head of the queue in the same step. |
| Admission.Controller.GrantWaitingReads | cloudflare/okx-mcp/src/runtime_session.ts:328-339 | The loop hands free slots to waiting reads, oldest first. |
| Admission.Controller.Dispatch | cloudflare/okx-mcp/src/runtime_session.ts:341-398 | Updates counters and queue as specified for an arrival. |
| Admission.Controller.TimerFires | cloudflare/okx-mcp/src/runtime_session.ts:348-352 | Takes a read that waited too long out of the queue, once. |
| Admission.Controller.Finally | cloudflare/okx-mcp/src/runtime_session.ts:467-474 | Returns the slot of a request and passes it on. |
| Promises.PendingReplies.WaitFor | cloudflare/okx-mcp/src/runtime_session.ts:531-543 | Registers a promise unless one is pending under its key. |
| Promises.PendingReplies.Resolve | cloudflare/okx-mcp/src/runtime_session.ts:545-551 | Settles the pending promise of its own generation only; no promise is settled twice. |
| Promises.PendingReplies.Clear | cloudflare/okx-mcp/src/runtime_session.ts:553-559 | The end of a request's handling settles what its own generation left pending under a key, and nothing else. |
| Promises.PendingReplies.RejectGeneration | cloudflare/okx-mcp/src/runtime_session.ts:561-568 | Settles every pending promise of one generation and no other. |
| Pagination.FilterIsOrder | crates/okx-agent/src/portfolio.rs:25-32 | An account's filter lets through exactly the rows beyond the cursor, but for rows with an empty id or one above the last code point at the cursor's time. |
| Pagination.ReadPage | crates/okx-agent/src/portfolio.rs:151-268 | A page is the first rows still to come over all accounts, as many as limit and byte budget allow, with a cursor exactly when rows are left; or the next row is one no page can hold. |
| Pagination.PageIsUnique | crates/okx-agent/src/portfolio.rs:229-268 | What is still to come, the limit and the budget determine the page. |
| Pagination.ReadHistory | crates/okx-agent/src/portfolio.rs:229-268 | Following the cursor to the end yields every matching row once, in (time, account, id) order; it fails exactly when some row is too large for any page. |
| Pagination.EmptyIdIsSkipped | crates/okx-agent/src/portfolio.rs:25-32 | With an empty id a row is skipped. |
| Pagination.HighIdIsRepeated | crates/okx-agent/src/portfolio.rs:25-32 | With an id above U+10FFFF a row comes twice. |
| Pagination.CutToBudget | crates/okx-agent/src/portfolio.rs:234-252 | The greedy cut by bytes. |
| Ordering.LeadsFromParts | crates/okx-agent/src/portfolio.rs:151-231 | The first rows of a union are among the first rows of its parts. |
| Pagination.Take | crates/okx-execution/src/ledger/sql/finance.rs:1408-1455 | What an ordered, limited query returns. |
| Rollup.Accumulate | crates/okx-agent/src/portfolio.rs:354-378 | Totals by environment stay the sums of the account details listed beside them; it fails only where such a sum cannot be represented. |
| Mailbox.Agent.Poll | crates/okx-agent/src/github_mailbox.rs:85-203 | Whatever happens in or to a poll, every posted response is on the thread, no request is answered twice, and the checkpoint never passes an owner request that is neither answered nor malformed for good; a poll whose listing is refused changes nothing; when nothing fails, everything asked before is settled. |
| Mailbox.Agent.Deal | crates/okx-agent/src/github_mailbox.rs:138-191 | Only an owner's request without a known response is acted on. |
| Mailbox.Agent.LoadLedger | crates/okx-agent/src/github_mailbox.rs:94-113 | Fails exactly when a listing would fill its ten pages; otherwise knows every response up to the cursor, from the file or from a scan of the whole thread. |
| Mailbox.NeverListed | crates/okx-github/src/lib.rs:584-620 | A backlog of a thousand comments, or a thread of a thousand without a ledger, is refused by every later listing, whatever is commented and however many comments the server repeats. |
| Mailbox.Agent.LoseCheckpoint | crates/okx-agent/src/github_mailbox.rs:239-259 | Losing the file loses none of these guarantees. |
| Mailbox.PollingPosts | crates/okx-agent/src/github_mailbox.rs:153-172 | Answering a request without a known response keeps posted responses distinct. |
| Mailbox.PollingCompletes | crates/okx-agent/src/github_mailbox.rs:307-314 | A completed batch moves the cursor past settled requests only. |
| SourceWindow.CursorRoundTrip | crates/okx-agent/src/source_capture.rs:241-246 | A printed cursor parses back to exactly its window and id if the id has no bar in it, and is never accepted otherwise. |
| SourceWindow.PendingIsKept | crates/okx-agent/src/source_capture.rs:206-220 | A pending window is resumed with its own begin and end at any later time. |
| SourceWindow.PageCovers | crates/okx-agent/src/source_capture.rs:703-728 | A page closes the gap between where the window stood and where the reading stopped. |
| SourceWindow.Source.Capture | crates/okx-agent/src/source_capture.rs:702-752 | Takes in the next page exactly, unless reading fails, the cursor is invalid or the page leads nowhere; over any run of readings, failures and restarts, every venue row from the start of history to the saved watermark has been taken in, but for rows of that very millisecond that appeared after the window was opened. |
| SourceWindow.Source.Appear | crates/okx-agent/src/source_capture.rs:221-229 | Rows that appear later take nothing of this back: the windows overlap by a millisecond. |
| BookSweep.NormalizedSide | crates/okx-analysis/src/microstructure.rs:198-222 | Accepts the first levels of a side exactly when they are positive numbers in strict order. |
| BookSweep.SweepIsOptimal | crates/okx-analysis/src/microstructure.rs:233-249 | No feasible way to trade the same amount costs less on asks or brings in more on bids. |
| BookSweep.VwapWorsens | crates/okx-analysis/src/microstructure.rs:251-255 | The average price only worsens as the requested size grows. |
| BookSweep.VwapBetween | crates/okx-analysis/src/microstructure.rs:251-255 | The average price lies between the best and the worst price used. |
| BookSweep.Sweep | crates/okx-analysis/src/microstructure.rs:224-272 | Fills min(requested, depth), at the specified average, worst price and impact. |
| BookSweep.BookSweepVwap | crates/okx-agent/src/query.rs:382-414 | Succeeds exactly when some prefix of accepted levels, empty ones among them, holds the request, with that prefix's average whatever comes after it; accepted levels that do not suffice are insufficient depth. |
| Sizing.SizeIsMaximal | crates/okx-analysis/src/candidate.rs:210-224 | The size fits both caps and one lot more breaks the cap that constrains it. |
| Sizing.PriceIsExact | crates/okx-analysis/src/candidate.rs:357-390 | The derived price nets exactly the requested amount, fees paid, long or short. |
| Sizing.TargetIsTight | crates/okx-analysis/src/candidate.rs:226-240 | The tick-rounded target earns at least the requested multiple of the loss, and the next tick towards the entry would not. |
| Sizing.CandidateIsSafe | crates/okx-analysis/src/candidate.rs:154-275 | A returned candidate never exceeds the notional or loss cap, is maximal in lots, and gives at least the requested reward for the risk. |
| Sizing.LateChecksNeverFail | crates/okx-analysis/src/candidate.rs:258-280 | Once sized, the checks on stop loss and target profit cannot fail. |
| Sizing.BreakEvenNets | crates/okx-analysis/src/scenario.rs:245-259 | The raw break-even nets exactly zero for any size, the tick break-even never less, and a tick towards loss always less. |
| Drawdown.MaxCloseDrawdown | crates/okx-analysis/src/scenario.rs:357-373 | The pass with a running peak finds the largest fall from any close to any later one. |
| Covariance.SampleCovarianceMatrix | crates/okx-analysis/src/statistics.rs:100-132 | The nested loops fill the matrix of sample covariances, or report too few samples or unequal lengths. |
| Covariance.CovSymmetric | crates/okx-analysis/src/statistics.rs:121-130 | The matrix is symmetric. |
| Covariance.VarianceIsMeanSquare | crates/okx-analysis/src/statistics.rs:341-353 | The portfolio variance is a mean square, so it is never negative: clamping it at zero changes nothing. |
| Covariance.ContributionsReconcile | crates/okx-analysis/src/statistics.rs:356-370 | The contributions times the volatility sum to the variance. |
| Covariance.NewtonFacts | crates/okx-analysis/src/statistics.rs:155-161 | One Newton step never undershoots the root and leaves at most a quarter of the residual. |
| Covariance.DecimalSqrt | crates/okx-analysis/src/statistics.rs:145-163 | The result is never below the root, and its residual at most 4^-63 of the one after the first step. |
| Architecture.Search | scripts/check_architecture.py:101-112 | An edge into a forbidden crate is reported exactly when its owner is reachable without crossing one, once, along a shortest way. |
| Architecture.PureDependencyViolations | scripts/check_architecture.py:89-113 | For every pure crate: that it is missing, or all its violations and nothing else. |
| Architecture.NextDistance | scripts/check_architecture.py:103-112 | Breadth first: once nothing at a distance waits, everything one step further has been visited. |
| FinanceWindow.Window.Record | crates/okx-agent/src/finance_window.rs:83-96 | Adds an attempt; a step back of the clock discards what came before, and a full window its oldest. |
| FinanceWindow.KeptExactly | crates/okx-agent/src/finance_window.rs:83-96 | After any log of attempts, one is still kept exactly when the clock has not gone back since and it is among the latest 2048. |
| FinanceWindow.Window.Summarize | crates/okx-agent/src/finance_window.rs:98-178 | Counts the faults of the window's samples; the state is clean exactly when a sample lies at or before the start and all later ones are successful, fresh, of one generation and at most five seconds apart up to now. |
| FinanceWindow.NoUncoveredGap | crates/okx-agent/src/finance_window.rs:98-131 | At every moment of a clean window there was a sample in the five seconds before. |
| FinanceWindow.OneGeneration | crates/okx-agent/src/finance_window.rs:113-120 | A clean window has one source generation. |
| FinanceWindow.NothingForgotten | crates/okx-agent/src/finance_window.rs:83-96 | An attempt within a clean window since which the clock has not gone back neither failed nor was stale. |
| FinanceWindow.ForgottenLeavesNoTrace | crates/okx-agent/src/finance_window.rs:84-91 | Where it has gone back since, what became of the attempt leaves no trace: any other outcome leaves the same samples. |
| FinanceWindow.ForgottenWhenClockGoesBack | crates/okx-agent/src/finance_window.rs:84-91 | So a failed attempt before the samples of any clean window can vanish. |
| FinanceWindow.TicksAreClean | crates/okx-agent/src/finance_window.rs:84-91 | A concrete clean window, and the failed attempt that vanishes from it. |
| FinanceWindow.NearestRank | crates/okx-agent/src/finance_window.rs:63-80 | The value at the rank is the least one that at least that share of the values does not exceed. |

## Left out

- Sequencing.SequenceFences: does not fence the read time of the last census, because a census that adds no loss moves it without raising the sequence.
- Throws of the handler on malformed JSON.
- Campaign bound without honest evidence: nothing ties reported losses to real ones then, and the code does not promise it.
- Pagination.ReadHistory: assumes the cursor's query and snapshot hashes matched, which is what makes the ledger one fixed set; a changed snapshot is refused by the source.
- Pagination.ReadPage: a limit of zero gives an empty page without a cursor, as in the source; the summary's own cursor is not modelled.
- Mailbox.Agent.Poll: one agent at a time and a faithful listing after the cursor, which a not-modified reply is taken to be; a response that the server applies only after the poll has ended is not modelled, nor is telemetry.
- SourceWindow.Source.Capture: rows that happen exactly at the watermark but appear only after its window was opened are not claimed for that window; the next one, which overlaps it by a millisecond, covers them. The venue lists newest first, and no row appears with a time before the latest any reading has seen; the readings' own clock may step back.
- BookSweep, Sizing, Covariance, Drawdown: decimals are exact reals; rounding to 28 digits and overflow errors are not modelled.
- Sorting inside the kernels: library sorts are replaced by insertion and selection, whose result is determined.
- Architecture.Search: reading the workspace manifest; the graph is an input.
- FinanceWindow.Window.Summarize: the map of failure reasons and the latency report around `NearestRank`.
- Bridge.Worker.Request: deadlines, transport and the form of commands and answers are fates of a request, not computed; the supplier of the second command fails in one way only.
- Storage.DurableStorage.Initialize: the retirement of legacy keys.
- Storage.DurableStorage.Handle: the check of the installation id, the summaries and the readback replies; the last two have their own theorems (`Authority.SummaryIsExact`, `Authority.UnsentReadback`, `Authority.ResolveReadback`).
- RESOLVE to POSTED: the handler lets through only UNKNOWN, OPEN and RELEASED.
- `latest_activity_ms`, JSON shapes, body sizes, HTTP, WebSocket and OAuth.
- INSPECT and the session SUMMARY of the handler: they read, and change nothing.
- Float code of the scenario simulation, correlations and the other statistics: sound but easy, or about rounding.
