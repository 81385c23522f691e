# Sharecrop: a verified model of the escrow economy and its protocols

Sharecrop is a task marketplace. Requesters fund tasks with credits and
collectibles, workers submit, reviewers accept, reject or ask for changes, and
everything that moves is escrowed in the meantime. This project models the
stores behind that in Dafny and proves what they promise over every input, every
run and, where requests interleave, every schedule.

`dafny verify dfyconfig.toml` checks the whole project.

## How it is laid out

- `Prelude` - identifiers, `Option`, the outcome of a transaction, decimal text.
- `Book` - the append-only ledger and the fund rows that cache it; the moves
  every command is made of, and that each keeps the ledger's invariants.
- `Vault` - collectibles, their escrow holds, and the award catalog.
- `Economy` - the database as a value, 28 commands as transactions, and runs.
- `EconomyInvariant` - the invariant of all tables and that every command keeps it.
- `EconomyRules`, `EconomyTables`, `EconomyRefusals` - an independent account of
  every command on rows alone: when it goes through, what each table holds
  afterwards and what it answers, and what a refusal means.
- `EconomyTheorems` - conservation, exactly once, what reviews and refunds move.
- `EconomyHistory` - final task states, replayed accepts, how collectibles change hands.
- `Stores`, `CollectibleStores` - the store methods as classes over the tables,
  statement by statement with rollback, each proved to take the step `Economy` specifies.
- `Locks` - the same commands split into lock, read, write and commit statements
  of interleaving transactions; `Deadlocks` - exactly when their locks can deadlock.
- `Outbox` - event recording under the fence row, and cursor readers.
- `Dispatch` - inline dispatch and the recovery sweep.
- `Sessions` - refresh-token families (see RFC 9700 section 4.14.2) and OpenID
  Connect sessions, with consume and issue as separate steps and logout tokens
  guarded against replay (OpenID Connect Back-Channel Logout 1.0 section 2.6).
- `RateLimit` - the persistent token bucket and its eviction.
- `ReplayLog` - the trimmed event log of an MCP session.
- `ElmCodec` - the decoder and encoder generator, with the meaning of what it emits.

Transactions of `Economy` are atomic, as the row locks make them; `Locks` and
`Outbox` justify that for balances and event order. Facts a transaction reads from
tables outside the model (memberships, budgets, whether a person is an
implementor, whom an event draft already names) arrive as parameters of the
command, so every theorem holds whatever they are. No theorem bounds
amounts, keys, the length of a history or the number of transactions.

## Where the code and its documentation part

- `internal/db/task_store.go:121-124` says a concurrent cancel and fund, or open
  and refund, cannot interleave. The store does lock the row, but the transition
  was validated on an earlier, unlocked read (`internal/task/service.go:270-299`)
  and the store writes any target over any state. A stale unpublish turns a
  cancelled task back into a draft, which can be funded and refunded again
  (`StaleUnpublishAllowsSecondRefund`). `FinalLeftOnlyByStaleRead` says exactly
  when a final state is left, and refund-once is proved for current reads.
- An accept that selects no credit payout leaves the fund row on the closed task,
  where it then stays for good while reads are current
  (`AcceptClearsFundUnlessNoCredit`, `FinalIsFrozenInRun`). The HTTP and MCP front
  ends only send full or partial selections for an accept; the store takes all three.
- `internal/db/auth_store.go:518-520` says that after reuse nobody can keep
  rotating a family. A refresh that has consumed its token and not yet issued the
  next one still can; the same holds for logout, password changes and provider
  logout (`RevokedFamilyRevivesIffInFlight`, `EndedForGoodIffNotInFlight`).
- `internal/db/event_store.go:70-72` says there are no deadlock cycles because the
  fence is the last lock. The locks before it are not taken in one order. Fundings
  lock the payer's account and then the task (`internal/db/ledger_store.go:34-46`),
  refunds and reviews the task and then an account, so a worker's funding of a task
  can deadlock with the accept that pays them. Sends order their accounts
  (`internal/db/ledger_store.go:850-853`) and charge their credential after them; a
  review that pays and tips locks the worker and then the reviewer, one that only
  tips the reviewer first, both with the credential charged just before the tip.
  `DeadlocksIffDisorderly` says exactly which command can deadlock among commands
  that keep the order, and `OrderlyNeverDeadlock` that no compatible mix of those can.
- `internal/db/ledger_store.go:710-712` says a refund whose key was already used is
  replayed. The refund cancels the task and a cancelled task is refused before the
  key is looked up, so with current reads that branch is never taken
  (`RefundIsNeverReplayed`).
- `internal/db/event_store.go:183-188` caps sweep attempts at 20. Retiring and
  claiming are two statements, each committed on its own. The cap holds for passes
  that run one at a time (`OneAtATimeKeepsCap`); for passes that overlap
  `PassesKeepCapIff` says exactly when, and `OpenPassesBoundIff` by how much it can fail.
- `internal/db/auth_store.go:294-306` replaces a password and signs the user out in
  two statements outside a transaction, so a failure in between leaves the old
  sessions alive (`ReplacingAloneSignsNobodyOut`).
- A replayed accept reports the first payout found under its task and key. With a
  key shared with an earlier payout of another amount it reports that one
  (`RetriedAcceptReportsCredits`); collectibles and tips are not reported again.

## Model

| member | source | states |
|---|---|---|
| EconomyTheorems.LedgerAgreesAfterAnyRun | internal/db/ledger_store_helpers.go:53-94 | After any run of commands: no account is negative, every task's fund row equals minus the sum of its fund, payout and refund entries and is positive, payouts stay within funding, and spendable plus allocated credits equal what was granted |
| EconomyTheorems.NothingStrandedAfterAnyRun | internal/db/ledger_store.go:581-708 | After any run a cancelled or expired task holds neither credits nor collectibles, a closed one no collectibles, and what a task holds fits its reward kind |
| EconomyTheorems.EscrowAfterAnyRun | internal/db/collectible_store.go:254-302 | After any run a collectible is escrowed exactly when a task holds it, a unique entry has at most one live instance, an edition at most its cap with numbers apart within 1..cap, and every instance's entry still exists |
| EconomyInvariant.StepKeeps | internal/db/ledger_store.go:27-1017 | Each of the 28 commands, replayed, refused or executed, keeps the whole invariant of ledger, funds, escrow, catalog and submissions |
| EconomyInvariant.RunKeeps | internal/db/ledger_store.go:27-1017 | Every run of commands keeps the invariant |
| EconomyInvariant.AcceptKeeps | internal/db/ledger_store.go:117-234 | An accept keeps the invariant through payout, refund of the rest, tips, delivery and superseding |
| EconomyInvariant.RejectKeeps | internal/db/ledger_store.go:334-452 | A reject keeps the invariant, the partly paid fund staying in place |
| EconomyInvariant.SettleKeeps | internal/db/task_store.go:264-309 | Returning a task's credits and collectibles keeps the invariant whatever state the task then takes |
| EconomyInvariant.CollectiblesKeep | internal/db/collectible_store.go:378-1270 | Gifts, organization transfers, minting and the catalog life cycle keep the invariant |
| EconomyRules.GoesThroughIff | internal/db/ledger_store.go:27-1017 | Each of the 28 commands is refused if and only if its rule does not hold, a rule being stated on rows alone: who may review, fund, refund, gift and award, which states, keys, balances, policies and rewards it needs |
| EconomyRules.UsedSlotAnswers | internal/db/ledger_store.go:951-972 | A keyed command that finds an entry under its key moves nothing: it is a replay if the entry records it (a peer transfer of minus the amount, a manual adjustment of the amount, a task fund on the task), and is refused as a reused key otherwise |
| EconomyRules.UsedSlotAnswersInRun | internal/db/ledger_store.go:951-972 | So it is after any run of commands, whoever used the key first and for what |
| EconomyTables.EveryCommandObeys | internal/db/ledger_store.go:27-1017 | A command that goes through leaves every table exactly as its row-by-row rule says: entries with account, kind, amount, task and key, fund rows, tasks, submissions, collectibles, holds, catalog, events with recipients, and the reply; a repeated one changes nothing |
| EconomyTables.RepeatedRepliesFromRecord | internal/db/ledger_store_helpers.go:715-732 | A repeated command is answered from the entry or submission it finds, with nothing newly paid or tipped |
| EconomyTables.AcceptMovesCollectibles | internal/db/ledger_store_helpers.go:538-624 | A first accept makes the held collectibles and the tipped one the worker's and leaves all others alone; a tip that moves was the reviewer's, free, tippable and, if bound to an organization, shared; the reply names credits and collectible tipped, constructor by constructor |
| EconomyRefusals.RefusalsTellTheTruth | internal/db/ledger_store.go:27-1017 | The reason of every refusal of every command says something true of the tables and the command, and a refusal changes nothing |
| EconomyTheorems.AcceptMovesCredits | internal/db/ledger_store_helpers.go:398-536 | A first accept pays the worker what was selected, returns the rest to the funder, moves the tip from reviewer to worker, touches no other account and creates no credits |
| EconomyTheorems.AcceptClearsFundUnlessNoCredit | internal/db/ledger_store_helpers.go:398-400 | A first accept leaves a fund row behind if and only if it selected no credit payout on a funded task, and then the reward is a bundle |
| EconomyTheorems.AcceptSettlesTask | internal/db/ledger_store.go:117-234 | The accept closes the open task, leaves no submission waiting, supersedes exactly the competing ones, leaves all others alone and gives the worker every held collectible |
| EconomyTheorems.AcceptTellsTheSuperseded | internal/db/ledger_store_helpers.go:860-916 | One superseded event per competing submission, to its submitter, and none for any other submission |
| EconomyTheorems.RejectMovesCredits | internal/db/ledger_store.go:334-452 | A first reject pays out of the fund, keeps the rest and its funder, moves the tip, and changes no task, collectible or other submission |
| EconomyTheorems.RefundReturnsEverything | internal/db/ledger_store.go:581-669 | A refund gives the funder all the task holds, hands held collectibles back unescrowed to their owners and cancels the task |
| EconomyTheorems.FundMovesExactly | internal/db/ledger_store.go:27-102 | Funding takes the amount off the payer, puts exactly it on the draft, and declares credits on a draft that had none, keeping its collectible component |
| EconomyTheorems.RefundUndoesFunding | internal/db/ledger_store.go:581-669 | Funding and then refunding restores every balance and every fund row |
| EconomyTheorems.SettlingReturnsEverything | internal/db/task_store.go:264-309 | Cancelling or expiring a task returns all its credits to the funder and all its collectibles to their owners |
| EconomyTheorems.GrantsReachTheirAccount | internal/db/auth_store.go:616-646 | What a signup, organization or manual grant mints reaches its account and no other |
| EconomyTheorems.OneAcceptedAfterAnyRun | migrations/000006_credits_ledger.sql:50-52 | After any run a task has at most one accepted submission |
| EconomyTheorems.SendMovesExactly | internal/db/ledger_store.go:900-1017 | A send moves exactly its amount from a covered source to the target and leaves every fund alone |
| EconomyTheorems.StepConserves | internal/db/ledger_store.go:460-531 | A command changes the credits in circulation by exactly what a grant reports, and every other command by nothing |
| EconomyTheorems.StepGrows | internal/db/ledger_store.go:27-1017 | The ledger is append-only under every command |
| EconomyTheorems.ReplaysAndRefusalsChangeNothing | internal/db/ledger_store.go:145-150 | A replay, which commits, leaves every table and the recorded events as they were; a refusal rolls back, which the store methods are proved to do |
| EconomyTheorems.MovesAtMostOnce | internal/db/ledger_store_helpers.go:326-349 | However commands interleave, a funding (account, key), a keyed grant, a keyed send and a signup grant each move credits at most once in a run |
| EconomyTheorems.IdenticalRetryIsReplayed | internal/db/ledger_store.go:951-972 | A signup grant, keyed grant, funding or keyed send repeated at any later point of a run is never refused: it is answered with the first reply marked as a replay, and changes nothing |
| EconomyTheorems.RetriedReviewReplaysIffReviewable | internal/db/ledger_store.go:347-378 | A review repeated under its key, at any later point of a run and whatever else differs, changes nothing; it is replayed if its reviewer is still allowed and, for a reject or a request for changes, the task is still open, and is refused otherwise |
| EconomyTheorems.ReviewedAtMostOnce | internal/db/ledger_store.go:145-150 | A submission is accepted, rejected or sent back at most once in a run, whichever comes first |
| EconomyTheorems.AcceptedAtMostOncePerTask | migrations/000006_credits_ledger.sql:50-52 | A task has at most one acceptance in a run |
| EconomyHistory.FinalLeftOnlyByStaleRead | internal/task/service.go:270-299 | A closed, cancelled or expired task leaves that state if and only if a state change validated against a stale read writes another, openable if it is open |
| EconomyHistory.FinalIsFrozenInRun | internal/db/task_store.go:120-214 | While reads are current, a final task and whatever fund row it has stay frozen for the rest of the run |
| EconomyHistory.RefundedAtMostOnce | internal/db/ledger_store.go:675-708 | With current reads a task is refunded at most once in a run |
| EconomyHistory.RefundIsNeverReplayed | internal/db/ledger_store.go:710-732 | With current reads no refund in any run is answered as a replay: a refunded task is no longer refundable and a retry is refused |
| EconomyHistory.StaleUnpublishAllowsSecondRefund | internal/db/task_store.go:120-124 | A stale unpublish reopens any cancelled credit task for funding and a second refund, so the condition above is needed |
| EconomyHistory.RetriedAcceptReportsCredits | internal/db/ledger_store_helpers.go:715-732 | A retried accept reports the credits first paid if and only if no earlier payout of another amount used the key on the task |
| EconomyHistory.OwnerChangesOnlyAsAllowed | internal/assets/policy.go:73-119 | Policies are fixed; a user's collectible never leaves them if issuer-controlled, and if payout-only or escrowed only by an accept that delivers it to the worker |
| EconomyHistory.TransferMovesOneCollectible | internal/db/collectible_store.go:378-476 | A transfer leaves one collectible with its receiver, took it from its giver out of escrow under a policy that allows it (an organization award aside), and changes nothing else |
| EconomyHistory.IssuerControlledStaysPut | internal/assets/policy.go:108-119 | Over any run a user's issuer-controlled collectible keeps its owner |
| EconomyHistory.PayoutOnlyMovesByPayout | internal/assets/policy.go:90-101 | Over any run a payout-only collectible that changed hands was paid out by an accept in between |
| EconomyHistory.HeldKeepsOwner | internal/db/ledger_store_helpers.go:691-708 | As long as it stays in escrow a collectible keeps its owner, so a refund returns it to whoever put it up |
| Book.AllocateEffect | internal/db/ledger_store_helpers.go:53-94 | An allocation keeps all ledger invariants, debits only the funder and adds exactly one row |
| Book.MoveEffect | internal/db/ledger_store_helpers.go:480-536 | A tip or send keeps all ledger invariants and moves one amount between two accounts |
| Book.ReturnEffect | internal/db/task_store.go:281-309 | Returning a fund keeps all ledger invariants and credits its funder with what the row held |
| Book.PayReviewEffect | internal/db/ledger_store_helpers.go:398-478 | A review payment credits the worker what it reports and, closing, the funder the rest; the row shrinks or goes exactly accordingly |
| Book.PayReviewKeeps | internal/db/ledger_store_helpers.go:398-478 | A review payment keeps row and ledger in agreement, balances non-negative and circulation constant |
| Book.PayoutsWithinFunding | internal/db/ledger_store_helpers.go:398-478 | Payouts, refunds and what is still held add up to what was funded |
| Book.AllocateKeepsWorth | internal/db/ledger_store.go:734-745 | Funding changes no account's spendable and allocated credits together |
| Book.ReturnKeepsWorth | internal/db/ledger_store.go:734-745 | Returning a fund changes no account's spendable and allocated credits together |
| Book.PayReviewMovesWorth | internal/db/ledger_store_helpers.go:398-478 | A review payment takes exactly what it pays off the funder's credits, spendable and allocated, and adds it to the worker's |
| Vault.AwardKeeps | internal/db/collectible_store.go:946-1017 | An award keeps uniqueness, caps and distinct edition numbers, because it numbers one past the largest or needs the live slot free |
| Vault.ReleaseKeeps | internal/db/collectible_store.go:1077-1142 | Releasing a withdrawn instance keeps a unique entry to one live instance |
| Vault.EntriesKeep | internal/db/collectible_store.go:831-941 | Adding, flipping and deleting catalog entries keeps every instance's entry in place |
| Vault.CatalogBounds | internal/assets/service.go:465-484 | At most one live unique instance; at most cap editions, numbered apart within 1..cap |
| Vault.ReleaseUndoesWithdraw | internal/db/collectible_store.go:1077-1142 | A withdrawn instance can be released at once, restoring the vault |
| Vault.DeleteUndoesAward | internal/db/collectible_store.go:1146-1171 | Withdrawing and deleting an awarded instance restores the vault, so its edition number is used again |
| Vault.DeleteUndoesAddEntry | internal/db/collectible_store.go:910-941 | A new entry can be withdrawn and deleted at once, restoring the catalog |
| Vault.GiveBackUndoesEscrow | internal/db/ledger_store_helpers.go:691-708 | Giving back what a task just escrowed restores the vault |
| Vault.DeliverKeeps | internal/db/ledger_store_helpers.go:605-628 | Delivering held collectibles keeps the vault's invariant and leaves the task none |
| Vault.GiveBackKeeps | internal/db/ledger_store_helpers.go:691-708 | Giving held collectibles back keeps the vault's invariant and leaves the task none |
| Vault.EscrowAllEffect | internal/db/task_store.go:28-99 | Creating a task with collectibles escrows exactly those named, all the creator's and none held elsewhere |
| Stores.LedgerStore.FundTask | internal/db/ledger_store.go:27-102 | The statements of a funding take exactly the specified step, user or organization |
| Stores.LedgerStore.RequireFundable | internal/db/ledger_store_helpers.go:283-317 | Accepts a draft whose declared amount matches, or declares credits on one without |
| Stores.LedgerStore.CompleteFunding | internal/db/ledger_store_helpers.go:53-94 | Checks the row and the balance, then inserts row and entry, or reports why not |
| Stores.LedgerStore.PayReviewFund | internal/db/ledger_store_helpers.go:398-478 | Payout, refund of the rest and the row's fate are those of the specified payment |
| Stores.LedgerStore.PayCreditTip | internal/db/ledger_store_helpers.go:480-536 | Debit and credit of a tip as specified, or the reason it is refused |
| Stores.LedgerStore.PayCollectibleTip | internal/db/ledger_store_helpers.go:538-583 | The tipped collectible moves as specified, or the reason it does not |
| Stores.LedgerStore.PayOutCollectible | internal/db/ledger_store_helpers.go:605-628 | The loop over held collectibles delivers all of them and clears the holds |
| Stores.LedgerStore.RefundHeldCollectibles | internal/db/ledger_store_helpers.go:691-708 | The loop over held collectibles returns all of them and clears the holds |
| Stores.LedgerStore.SupersedeCompeting | internal/db/ledger_store_helpers.go:860-916 | The loop supersedes exactly the competing submissions and drafts one event for each |
| Stores.LedgerStore.AcceptSubmission | internal/db/ledger_store.go:117-234 | The accept transaction takes exactly the specified step and rolls back on refusal |
| Stores.LedgerStore.RejectSubmission | internal/db/ledger_store.go:334-452 | The reject transaction takes exactly the specified step and rolls back on refusal |
| Stores.LedgerStore.RequestChanges | internal/db/ledger_store.go:260-332 | The request-changes transaction takes exactly the specified step |
| Stores.LedgerStore.GrantSignupCredits | internal/db/auth_store.go:616-646 | The verification grant takes exactly the specified step, a no-op when its key is taken |
| Stores.LedgerStore.GrantCredits | internal/db/ledger_store.go:460-531 | The keyed grant takes exactly the specified step |
| Stores.LedgerStore.PeerTransfer | internal/db/ledger_store.go:900-1017 | The send transaction takes exactly the specified step |
| Stores.LedgerStore.RefundTask | internal/db/ledger_store.go:581-732 | The refund transaction takes exactly the specified step, its replay branch included |
| Stores.LedgerStore.Balance | internal/db/ledger_store.go:734-745 | Returns the fold over the account's entries and the sum of the funds it put up |
| Stores.LedgerStore.TaskAllocatedCredits | internal/db/ledger_store.go:747-756 | Whenever row and ledger agree, returns all that was funded less all payouts and refunds in the ledger; zero exactly for a task without a fund |
| CollectibleStores.CollectibleStore.FundCollectibleReward | internal/db/collectible_store.go:203-302 | Validates, upgrades the reward kind, escrows and holds, exactly as specified |
| CollectibleStores.CollectibleStore.RefundCollectibleReward | internal/db/collectible_store.go:304-360 | Returns every held collectible and cancels, refusing bundles, exactly as specified |
| CollectibleStores.CollectibleStore.GiftCollectible | internal/db/collectible_store.go:378-427 | A gift takes exactly the specified step |
| CollectibleStores.CollectibleStore.AwardOrganizationCollectible | internal/db/collectible_store.go:429-476 | An organization award takes exactly the specified step, without consulting the transfer policy |
| CollectibleStores.CollectibleStore.TransferToOrganization | internal/db/collectible_store.go:1178-1222 | A donation takes exactly the specified step |
| CollectibleStores.CollectibleStore.TransferFromOrganization | internal/db/collectible_store.go:1227-1270 | A hand-out takes exactly the specified step |
| CollectibleStores.CollectibleStore.AwardFromCatalog | internal/db/collectible_store.go:946-1017 | An award from the catalog takes exactly the specified step |
| CollectibleStores.CollectibleStore.WithdrawCollectible | internal/db/collectible_store.go:1023-1067 | A withdrawal takes exactly the specified step and tells the holder |
| CollectibleStores.CollectibleStore.ReleaseCollectible | internal/db/collectible_store.go:1077-1142 | A release takes exactly the specified step and tells the holder |
| CollectibleStores.CollectibleStore.DeleteWithdrawnCollectible | internal/db/collectible_store.go:1146-1171 | Only a withdrawn, unheld instance is deleted |
| CollectibleStores.CollectibleStore.DeleteCatalogEntry | internal/db/collectible_store.go:910-941 | Only a withdrawn entry without instances is deleted |
| Locks.NoOverdraftUnderInterleaving | internal/db/ledger_store_helpers.go:62-75 | However lock, read, write and commit statements of any number of transactions interleave, and whichever roll back, no account is ever negative and a locked read stays a lower bound until commit |
| Locks.CommitKeepsOthers | internal/db/ledger_store_helpers.go:494-533 | A commit only raises what another transaction has read, because it lacks that account's lock |
| Locks.UnlockedReadsOverdraw | internal/db/ledger_store_helpers.go:31-46 | Without the account lock two fundings of different tasks overdraw the payer |
| Locks.FundingIsDisciplined | internal/db/ledger_store.go:34-62 | Fundings lock before they read and read before they debit |
| Locks.SendingIsDisciplined | internal/db/ledger_store.go:926-1006 | So do sends |
| Locks.ReviewIsDisciplined | internal/db/ledger_store_helpers.go:398-536 | Reviews lock before they read and read before they debit, with a payout, a tip, both or neither; what they return to the funder lands without locking the funder for update |
| Locks.CommandsNeverOverdraw | internal/db/ledger_store_helpers.go:494-533 | No mix of fundings, sends, refunds, grants and reviews overdraws an account under any schedule |
| Locks.DebitRefusedIffNotCovered | internal/db/ledger_store_helpers.go:62-75 | In every reachable state of any mix a debit does not wait, no other transaction has uncommitted posts on its account, and it is refused if and only if the committed balance and its own posts do not cover it |
| Locks.CommitsPostWholeCommands | internal/db/ledger_store.go:27-1017 | Whatever interleaves, a turn posts nothing or is a commit and posts to every account exactly what its command as a whole moves |
| Locks.FenceIsLast | internal/db/event_store.go:70-74 | Every command takes the fence last and once |
| Deadlocks.SendingAscends | internal/db/ledger_store.go:850-1006 | A send takes its two account locks in key order, then its credential, then the fence, whichever way the credits go |
| Deadlocks.FundingAscends | internal/db/ledger_store.go:34-62 | A funding takes account, task, credential and fence upwards, if tasks being funded come after accounts |
| Deadlocks.CreditingAscends | internal/db/ledger_store.go:581-669 | So does a refund, which shares the funder's account under its task, if tasks not being funded come before accounts; and so does a grant |
| Deadlocks.ReviewAscends | internal/db/ledger_store_helpers.go:182-536 | An orderly review takes task, accounts, credential and fence upwards, whatever it pays, returns and tips |
| Deadlocks.OrderlyNeverDeadlock | internal/db/event_store.go:70-74 | In every reachable state of any mix of sends, fundings, grants, refunds and orderly reviews in which no task is both funded and refunded, or both funded and reviewed with a payout or tip, no group waits in a circle and some unfinished command can step |
| Deadlocks.SendsNeverDeadlock | internal/db/ledger_store.go:926-941 | Any number of sends and grants never deadlock, without a condition |
| Deadlocks.DisorderlyReviewMeets | internal/db/ledger_store_helpers.go:434-520 | Every disorderly review can come to wait for a command that waits for it: a send in key order, a send through its credential or, if it locks anew the account its return shares, another review like it |
| Deadlocks.MeetsFunding | internal/db/ledger_store.go:34-46 | Every refund, and every review with a payout or tip, can come to wait for a funding of its task that waits for it |
| Deadlocks.FundingMeetsRefund | internal/db/ledger_store.go:34-46 | And every funding for a refund of its task |
| Deadlocks.DeadlocksIffDisorderly | internal/db/ledger_store_helpers.go:434-520 | Whatever tasks are open to funding: among commands that keep the order of the locks, any command can be part of a circular wait if and only if it breaks the order itself, a review by its accounts or its credential, a funding, refund or review by its task |
| Deadlocks.CrossingTipsDisagree | internal/db/ledger_store_helpers.go:434-520 | Of two reviews that pay and tip each other's reviewer exactly one is orderly |
| Deadlocks.CrossingTipsDeadlock | internal/db/ledger_store_helpers.go:434-520 | The two can come to wait for each other |
| Outbox.VisibleGrowsUpward | internal/db/event_store.go:58-118 | Once an event is visible no lower sequence number becomes visible later, whatever writers do |
| Outbox.VisibleIffCommitted | internal/db/event_store.go:58-118 | An event recorded under the fence is visible, with its own draft and number, if and only if its transaction has committed; after a rollback it never is |
| Outbox.EveryWriterAfter | internal/db/event_store.go:75-78 | After any step every writer is exactly as the step says: the fence goes to who asks while no other has it, inserts need it, commit and rollback end it |
| Outbox.EveryLogAfter | internal/db/event_store.go:58-118 | What is visible and the last number after any step, exactly |
| Outbox.ReaderSeesEachExactlyOnce | internal/db/event_store.go:403-436 | A reader that pages by its cursor has received exactly its feed's visible events between start and cursor, each once, in order |
| Outbox.ShortPageCatchesUp | internal/db/event_store.go:403-436 | A page shorter than its limit leaves nothing of the feed unread |
| Outbox.PageIsBetween | internal/db/event_store.go:403-436 | On an ordered log a page is exactly the rows between the old cursor and the new |
| Outbox.UnfencedReaderSkips | internal/db/event_store.go:62-74 | Without the fence a trace exists whose lower-numbered event the reader never receives, whatever runs later |
| Dispatch.EventStore.Dispatch | internal/db/event_store.go:135-179 | Expands and flips a recorded event once; unknown, dispatched and failed ones are left alone |
| Dispatch.EventStore.ListRecordedBefore | internal/db/event_store.go:219-285 | Retires and claims as specified and returns exactly the claimed rows that parse, in sequence order |
| Dispatch.EventStore.Sweep | cmd/sharecrop/lifecycle.go:144-157 | Dispatches exactly what it claimed, parsed and notified: those rows were recorded and are now dispatched and expanded once more, and no other row is |
| Dispatch.HistoryKeeps | internal/db/event_store.go:135-179 | However retires, claims, dispatches and recordings interleave, an event is expanded exactly once if dispatched and never otherwise, both final states are final, and attempts only grow |
| Dispatch.OutcomeIff | internal/db/event_store.go:163-171 | In any history a row is dispatched if and only if a dispatch found it recorded, and failed if and only if a retire found it recorded, stale and with 20 attempts |
| Dispatch.DispatchIsForGood | internal/db/event_store.go:163-171 | A dispatch that finds its event recorded leaves it dispatched and expanded once in every later state |
| Dispatch.ClaimTakesTheFirst | internal/db/event_store.go:231-250 | A claim adds an attempt to exactly the first rows, up to the limit, that are recorded and occurred by the cutoff |
| Dispatch.OneAtATimeKeepsCap | internal/db/event_store.go:219-250 | When each claim follows its own pass's retire, with dispatches and recordings anywhere in between, attempts never exceed 20 |
| Dispatch.SweepDrains | internal/db/event_store.go:219-285 | After 21 passes, one at a time, for each row up to and including its own every event, behind any poison rows and with any batch size of at least one, is dispatched and expanded once if a dispatch of it ever ran while it was recorded, and failed if none did |
| Dispatch.PassLowers | internal/db/event_store.go:219-285 | Each pass over a stale row strictly lowers the sum of 21 minus attempts over the recorded rows up to it |
| Dispatch.ClaimLowers | internal/db/event_store.go:230-241 | A claim alone lowers it, because the first stale row is no later and is in every batch |
| Dispatch.PassFailsExactlyTheSpent | internal/db/event_store.go:219-228 | A pass fails a row if and only if it is stale with its 20 attempts spent |
| Dispatch.InterleavedPassesKeepCapIff | internal/db/event_store.go:219-250 | Any number of passes, with any cutoffs and limits, whose retires all precede their claims keep the cap if and only if after the retires no row is in more of the batches than it has attempts left |
| Dispatch.TwoPassesKeepCapIff | internal/db/event_store.go:219-250 | For two passes: if and only if no row both claim is on its last attempt |
| Dispatch.PastCapIffClaimsExceed | internal/db/event_store.go:219-250 | In any history a row is past the cap if and only if the attempts it began with and the claims that took it since exceed 20 |
| Dispatch.PassesKeepCapIff | internal/db/event_store.go:219-250 | However passes open and close, the cap is kept if and only if never two are open at once of which one takes a row's last attempt and the other later takes the row too |
| Dispatch.OpenPassesBoundIff | internal/db/event_store.go:183-188 | With at most m passes open at a time a number bounds the attempts in every schedule if and only if it is at least 19 + m; so the cap itself holds for m = 1 alone |
| Sessions.FamiliesStayLinear | internal/auth/service.go:503-535 | With consume and issue as separate steps, every family keeps at most one active token or refresh in flight over any steps from any such state |
| Sessions.LinearAfterAnyRun | internal/auth/service.go:503-535 | So it is in every state reached from the empty store: two active tokens of one family are the same, so are two refreshes in flight, and there are never both |
| Sessions.ConsumedAtMostOnce | internal/db/auth_store.go:492-556 | However requests interleave a token is consumed at most once |
| Sessions.ConsumedIff | internal/db/auth_store.go:496-540 | A token is consumed if and only if it is known, active and expires later; an expired active one is refused and changes nothing |
| Sessions.ExpiredNeverConsumed | internal/db/auth_store.go:531-533 | In no run is a token consumed at or after the expiry it was issued with, and no refresh starts from such an attempt |
| Sessions.EveryTokenAfter | internal/db/auth_store.go:367-400 | After any step every token is as it was, used, revoked because of its family, user or provider session, or newly issued, exactly as the step says |
| Sessions.EveryFlightAfter | internal/auth/service.go:503-535 | A refresh is in flight exactly from the use of its token until it finishes or crashes, for the family and subject of that token |
| Sessions.EveryRecordAfter | internal/db/oidc_session_store.go:18-133 | Provider sessions, logout claims and passwords after any step, exactly |
| Sessions.NeverActiveAgain | internal/db/auth_store.go:518-529 | A consumed or revoked token never changes again |
| Sessions.RevokedFamilyRevivesIffInFlight | internal/db/auth_store.go:367-377 | A family without an active token becomes active again in some run, with a token that expires as late as you please, if and only if a refresh of it is in flight |
| Sessions.EndedForGoodIffNotInFlight | internal/db/auth_store.go:518-535 | Reuse, signing out, front-channel and back-channel logout leave the family no active token, and none in any later state of any run if and only if no refresh of it is in flight |
| Sessions.DeadStaysDead | internal/db/auth_store.go:518-529 | A family with neither an active token nor a refresh in flight stays dead for good |
| Sessions.ReuseKillsFamily | internal/db/auth_store.go:518-529 | Reuse is reported exactly for a known token that is not active, and leaves its family without an active token and other families alone |
| Sessions.FamilyFindsOneSession | internal/db/oidc_session_store.go:45-77 | Every token of a family finds the same provider session, and it never changes once found |
| Sessions.RefreshKeepsSession | internal/auth/oidc_session.go:95-104 | The token a refresh issues finds the session its predecessor finds, whatever happened between the two calls |
| Sessions.BackchannelRevokesSelected | internal/db/oidc_session_store.go:93-133 | An applied logout token revokes exactly the active tokens of the families it selects |
| Sessions.LogoutTokenAppliedAtMostOnce | internal/db/oidc_session_store.go:93-112 | Until it expires a logout token is applied at most once; a replay changes nothing |
| Sessions.AuthStore.ConsumeRefreshToken | internal/db/auth_store.go:492-556 | Consumes, detects reuse, or leaves the store alone, exactly as specified |
| Sessions.AuthStore.StoreRefreshToken | internal/db/auth_store.go:379-403 | Stores an active token unless its hash exists |
| Sessions.AuthStore.RevokeRefreshFamily | internal/db/auth_store.go:367-377 | Revokes the presented token's family, nothing for an unknown token |
| Sessions.AuthStore.UpdatePassword | internal/db/auth_store.go:294-306 | Replaces an existing password and then revokes the user's active tokens; refuses an account without one, untouched |
| Sessions.AuthStore.CreateUserCredential | internal/db/auth_store.go:57-92 | Inserts a password unless the user has one; that the source also refuses a taken email address and opens the credit account is not modelled here |
| Sessions.SignOutRevokesTheUsers | internal/db/auth_store.go:302-304 | Revokes exactly the user's active tokens |
| Sessions.ReplacingAloneSignsNobodyOut | internal/db/auth_store.go:294-306 | Between the two statements of a password change every session is still alive |
| Sessions.AuthStore.StoreOpenIDConnectSession | internal/db/oidc_session_store.go:18-43 | Stores one session per family, found by a known token |
| Sessions.AuthStore.ApplyBackchannelLogout | internal/db/oidc_session_store.go:93-133 | Claims and revokes, or rolls back on replay, exactly as specified |
| Sessions.AuthStore.ApplyFrontchannelLogout | internal/db/oidc_session_store.go:79-91 | Revokes exactly the families of the matching sessions |
| Sessions.Service.Refresh | internal/auth/service.go:503-535 | An uninterrupted refresh is accepted if and only if its token is active and unexpired and the next one new; it consumes the one and issues the other, active, to the same family and subject |
| RateLimit.RateLimiter.Allow | internal/db/rate_limit_store.go:49-111 | Allows exactly when a whole token is available after refilling, and writes back the rest |
| RateLimit.RateLimiter.EvictExpired | internal/db/rate_limit_store.go:151-157 | Deletes exactly the limiter's own buckets idle longer than the refill time |
| RateLimit.IdleLongerIsFull | internal/db/rate_limit_store.go:25-34 | Truncating the refill time to whole nanoseconds is safe: a longer idle span has refilled the bucket |
| RateLimit.EvictionIsInvisible | internal/db/rate_limit_store.go:151-157 | After an eviction every key has, at every later time, the tokens it would have had |
| RateLimit.EvictionNeverChangesAnAnswer | internal/db/rate_limit_store.go:151-157 | With times in lock order any history is answered as if nothing were ever evicted |
| RateLimit.ServeKeeps | internal/db/rate_limit_store.go:77-106 | Stored tokens stay within 0 and the capacity in every history |
| RateLimit.WindowBound | internal/db/rate_limit_store.go:49-111 | In any window a key is granted at most the capacity plus the refill per second times the seconds of the window, evictions or not |
| RateLimit.RefillIsExact | internal/db/rate_limit_store.go:89-92 | What is available later is the smaller of the capacity and what was available plus refill times seconds |
| RateLimit.AllowedIffLevel | internal/db/rate_limit_store.go:49-111 | From the empty table on, whatever is evicted and whoever else asks, a request is allowed if and only if a bucket kept for its key alone has a token |
| RateLimit.EvictedIff | internal/db/rate_limit_store.go:151-157 | A bucket of the limiter is evicted if and only if its idle time times the refill exceeds the capacity |
| ReplayLog.TrimmedRefinesFull | internal/db/mcp_session_store.go:84-220 | Over any sequence of requests the trimming store gives every answer that a store which keeps all history, checks subject, closing and idle time itself and offers the newest 100 events gives |
| ReplayLog.AppendAgrees | internal/db/mcp_session_store.go:84-137 | Numbering from retained rows continues the history without gap, and exactly the newest hundred stay |
| ReplayLog.ListAgrees | internal/db/mcp_session_store.go:176-220 | Resuming after a retained event gives exactly the next appended events up to the limit; an unknown event gives none |
| ReplayLog.MCPSessionStore.AppendMCPEvent | internal/db/mcp_session_store.go:84-137 | Appends, numbers and trims as specified; refuses a session that is not open |
| ReplayLog.MCPSessionStore.ListMCPEvents | internal/db/mcp_session_store.go:176-220 | Collects the rows after the resume point in order, as specified |
| ReplayLog.MCPSessionStore.CreateMCPSession | internal/db/mcp_session_store.go:23-33 | Creates or reopens a session, keeping its events |
| ReplayLog.MCPSessionStore.TouchMCPSession | internal/db/mcp_session_store.go:35-48 | Touches only the subject's open session within the cutoff |
| ReplayLog.MCPSessionStore.CloseMCPSession | internal/db/mcp_session_store.go:50-60 | Closes an open session once |
| ReplayLog.MCPSessionStore.DeleteExpiredMCPSessions | internal/db/mcp_session_store.go:144-174 | Deletes exactly the idle or closed sessions with their events |
| ElmCodec.GeneratedCodecsRoundTrip | internal/contracts/elm.go:196-369 | In a module with distinct names, tags and JSON names and no empty product, every value of every type survives encoding and decoding |
| ElmCodec.ProductDecoderIsFlat | internal/contracts/elm.go:220-265 | For every field count the decoder decodes and fails exactly as one application of the constructor to all fields in order; with no fields it decodes nothing |
| ElmCodec.ProductMapsExist | internal/contracts/elm.go:220-309 | The decoder of any product with fields uses map to map8 only: eight fields in each map but the last, none left over |
| ElmCodec.GeneratedMapsExist | internal/contracts/elm.go:62-140 | So every decoder of a module with fields in its products can be written in Elm |
| ElmCodec.DecodesIffCarries | internal/contracts/elm.go:169-265 | Whatever the JSON, a generated decoder gives a value if and only if the JSON carries it: strings and numbers as they are, an enum as its tag, a record by its JSON names |
| ElmCodec.EncodedCarries | internal/contracts/elm.go:200-300 | What a typed value is encoded to carries it in that format |
| ElmCodec.MembersAreFields | internal/contracts/elm.go:275-299 | An encoded record has its JSON names for members and no others |
| ElmCodec.CodecNames | internal/contracts/elm.go:376-381 | A codec's name starts with a lower-case letter and otherwise is its type's name and the suffix |
| ElmCodec.ChunkedIsFlat | internal/contracts/elm.go:250-265 | Each chunk fed to the partially applied constructor extends the flat application by its fields |
| ElmCodec.WriteChunkedProductDecoder | internal/contracts/elm.go:250-265 | The chunk loop writes the specified decoder, last short chunk included |
| ElmCodec.GenerateElmFile | internal/contracts/elm.go:62-140 | The definition loop writes every definition's codecs |
| ElmCodec.GeneratedEmits | internal/contracts/elm.go:86-140 | Under distinct names each definition's codecs are found under its own names |
| ElmCodec.EnumRoundTripsIffTagsDistinct | internal/contracts/elm.go:169-218 | An enum's codecs undo each other on every variant if and only if its tags are distinct; with a repeated tag the emitted decoder repeats a string pattern, which Elm's compiler does not accept, so that half is about a program that would not be built |
| ElmCodec.ProductRoundTripsIffSharedNamesAgree | internal/contracts/elm.go:275-299 | A record of any product whose fields each round trip, with one type per JSON name, survives if and only if fields under one JSON name have the same value |
| ElmCodec.DepthIsImmaterial | internal/contracts/model.go:51-114 | In an acyclic module whether a value has a type does not depend on the depth beyond the reference's rank |
| ElmCodec.RoundTripAtEveryDepth | internal/contracts/model.go:51-114 | In an acyclic module the round trip of every value of a type holds at every depth from the reference's rank up |

## Left out

- Economy: commands are atomic transactions; statement-level interleaving is modelled for account balances (`Locks`), the event fence (`Outbox`) and refreshes (`Sessions`) only.
- Locks and deadlocks: the mixes are of the ledger store's commands that move credits, and their waits are for rows of accounts (locked for update, or shared by the foreign key of an entry, `migrations/000006_credits_ledger.sql:15`), tasks, credentials and the fence. Rows of submissions and funds are locked only under their task's row, and day counters only under the account or credential they count for. The theorems say nothing of mixes with reviews that pay out or tip collectibles, whose rows are locked as well; with other stores' transactions (creating, opening, cancelling, reserving, submitting, gifts); or with two commands that carry the same idempotency key, whose entries can wait for each other in the unique index.
- Memberships, reservations, bans, budgets and transfer velocity: their outcome is a parameter of the command; the refusal counter written outside the transaction is not modelled.
- Task and submission stores: creating, opening, cancelling, unpublishing and expiring tasks and inserting submissions are functions of `Economy`, not classes.
- Event payloads: kinds, subjects and recipients are kept, metadata and timestamps are not; events of a command form a multiset.
- FindPayout: the row a retried accept finds is taken in insertion order, as the query itself imposes none; payout collectibles are sets, so their listing order is not modelled.
- Integer width: amounts and sums are unbounded integers; 64-bit overflow of a sum is not modelled (sequence numbers of the replay log are bounded).
- MintCustom: does not model that an issuer has one live custom unique per name and numbers custom editions per name, since neither touches the catalog.
- Teams: they can own an account and a collectible, but no command of theirs is modelled.
- RateLimit: token counts are exact reals rather than floating point, stored times are not rounded to microseconds, and times do not decrease along the row lock's order; the failure path that denies on a storage error is not modelled.
- Outbox: offset paging on top of the cursor is left out; the page offset is zero.
- Dispatch: the rows of a webhook expansion are counted, not listed; notification fan-out is a parameter.
- Sessions: hashes are the tokens themselves and ids are fresh; access-token signing, guests' creation account tokens other than the signup grant, and the rest of a user's row are not modelled.
- Sessions.AuthStore.CreateUserCredential: does not model that a taken email address is refused and that the credit account is opened in the same transaction; accounts and signup grants are in `Economy`.
- ElmCodec: Elm's text layout, its parser and its type checker are not modelled; nested list types are written without parentheses in type aliases, which is a matter of text. JSON numbers are integers.
- SQL dialects, drivers, parsing of stored text, HTTP, MCP transport, WASI bridging, the Elm user interface and list queries: they would add easy members only.
