# Arktion backend: a verified model

This project models the stateful core of the Arktion reading platform and proves
what it guarantees. Arktion keeps its state in two places: a Postgres mirror and
an append-only chain that accepts each idempotency key once and then aborts. The
services read the mirror, make one chain call, and then write the mirror in one
transaction; anything can stop between two of those steps.

`dafny verify dfyconfig.toml` checks everything.

## How the files fit together

| file | what it models |
|---|---|
| `Keys.dfy` | the INK idempotency keys, as structured values and as the strings the services build |
| `InkStores.dfy` | the chain registry (earn, badge mint, both in one transaction) and the Postgres mirror (ledger, balance, passport total) |
| `ReadingRules.dfy` | status transitions and the rewards of one reading update |
| `RewardMachine.dfy` | every request as a thread of single awaits; arbitrary interleaving, failures, lost chain replies, crashes |
| `RewardInvariant.dfy`, `RewardSteps.dfy` | the inductive invariant and its preservation by every step |
| `RewardFrames.dfy`, `RewardEffects.dfy` | what one step of a thread can change: rows, program counter, chain, keys in flight |
| `RewardHistory.dfy` | where keys and badges in flight come from and how they get lost, in terms of the run's actions |
| `RewardTheorems.dfy` | what holds after any run of that machine |
| `VerdictRaces.dfy`, `VoteRaces.dfy`, `VerdictRuns.dfy` | exactly when a verdict, or the votes of a decided submission, survive every continuation, and two runs in which a verdict does not |
| `VerdictHistory.dfy` | what a verdict says about the votes of an interleaved run |
| `RewardServices.dfy`, `RecordThreads.dfy` | `mintEarning`, badge `mint`, `_executeApproval`, `_finalise`, `castVote` and `upsertRecord` run alone: the sequential services are the machine's own threads |
| `BadgeHistory.dfy` | every badge of an interleaved run was earned |
| `Reading.dfy` | the reading service one request at a time: exactly which rewards a history mints |
| `Tally.dfy`, `Dao.dfy` | the INK-weighted tally, and verdicts over whole runs |
| `ClientTally.dfy` | the browser store's incremental tally against the server's recount |
| `Bootstrap.dfy` | sign-in with a two-phase commit and crash recovery |
| `AdminUsers.dfy` | admin accounts and four-eyes role changes |
| `ChapterFeed.dfy`, `ChapterSync.dfy` | the paginated feed listing, and its upsert into the chapters table |
| `Payments.dfy`, `PaymentOverlap.dfy` | idempotent tips and sends, one request at a time and overlapping |
| `Sums.dfy`, `Fresh.dfy`, `Wrappers.dfy` | sums over sets and sequences; unused ids; Option and Result |

Two styles are used. Services whose claims hold one request at a time are classes
whose methods follow the TypeScript statement by statement; each method promises
its outcome and new state in terms of the rows themselves, and equals a function
on the state that the whole-run theorems are about. The reward protocol, whose claims hold under interleaving, is a state
machine with a program counter per request.

Every lemma turns automatic induction off: each induction is written out in its body.

Inputs instead of code: the clock, generated ids, the success or failure of each
database and chain call, wallet balances, the directory of users and series, and
the identity provider's address for an account.

## Where the code does not do what it says

- The comment above `_finalise` says its status guard prevents double finalisation
  under concurrent requests (`backend/src/submission/submission.service.ts:268`).
  It does not: the status is written later without a guard.
  `VerdictRuns.RejectOverwritesApproval` pays the submitter 50 INK and leaves the
  submission REJECTED; `VerdictRuns.ApproveOverwritesRejection` turns REJECTED into
  APPROVED and pays. `VerdictRaces.ApprovedForGoodExactly` and
  `VerdictRaces.RejectedForGoodExactly` say exactly when a verdict survives every
  continuation, `VoteRaces.VotesForGoodExactly` the same for the votes of a decided
  submission. The 50 INK are still paid at most once.
- `syncFromSource` is documented as idempotent
  (`backend/src/series/chapter.service.ts:170-172`). External ids are unique in
  the table (`backend/prisma/schema.prisma:124`) and a failed upsert is skipped, so
  a second sync can add a chapter the first one skipped:
  `ChapterSync.SyncTwiceDiffers`. `ChapterSync.IdempotentExactly` gives the exact
  condition on the table and the listing for a given order, `ChapterSync.AnyOrderExactly` for every order.
- The tally shows 0 % for a submission without any voted INK, below the 40 % line,
  although the rejecting test does not hold: `Tally.DisplayedPercentage` carries
  that exception.
- The browser's incremental tally equals a recount only if the voter is new or
  votes with an unchanged balance: `ClientTally.IncrementalTallyExact`.
- Overlapping payment requests write without checking again. A confirmation can
  leave a FAILED row that stores a digest (`Payments.OverlappingConfirms`) or
  replace a stored digest, so that one payment executes twice
  (`PaymentOverlap.BothExecute`). `PaymentOverlap.OutcomeOnSettled` and
  `PaymentOverlap.SettledExactly` say exactly when a settled row stays as it is,
  `PaymentOverlap.BuildGivesOwnTerms` when a build returns a payment with its own
  parameters. `PaymentOverlap.OverlapSound` is what every overlap keeps.

## Model

| member | source | states |
|---|---|---|
| Keys.RenderInjective | backend/src/reading/reading.service.ts:239-260 | for ids without ':', two reward keys are the same string exactly if they have the same shape, user, series or submission, and chapter mark |
| Keys.SplitAtColon | backend/src/submission/submission.service.ts:319 | a ':'-free field at the front of a key is determined by the whole string |
| Keys.DecimalRoundTrip | backend/src/reading/reading.service.ts:249-252 | the printed chapter mark determines the mark |
| Keys.RenderedKeys | backend/src/reading/reading.service.ts:239-260 | the four strings: `ink:`, the user, the reward's label, and the series with `chapter1` or `milestone` and the mark, or the submission |
| InkStores.EarnKeepsChainOk | smart-contract/README.md:82-95 | an accepted `earn` keeps one event per registered key, and minted INK equal to the keys' amounts for every user |
| InkStores.MintBadgeKeepsChainOk | smart-contract/README.md:120-125 | an accepted badge mint keeps one badge per composite key and leaves INK alone |
| InkStores.CreditKeepsMirrorOk | backend/src/ink/ink.service.ts:153-177 | the mirror transaction on a new key keeps balance = totalInkEarned = ledger sum for every user, and lowers no balance |
| InkStores.UpdateBranchOvercredits | backend/src/ink/ink.service.ts:154-172 | on a key that already has a row, the same transaction credits the balance again and breaks conservation |
| InkStores.BalanceCountsRows | backend/src/ink/ink.service.ts:21-25 | a conserved balance is 10 per chapter row, 100 per completion row and 50 per approval row |
| InkStores.CalculateLevel | backend/src/ink/ink.service.ts:262-272 | level n is reached exactly at 500, 2000, 6000, 15000 and 40000 INK, and it is never above 6 |
| ReadingRules.BuildRewards | backend/src/reading/reading.service.ts:235-261 | the pushed rewards are the first-chapter key of a new record, then 25·(⌊prev/25⌋+1) up to 25·⌊new/25⌋ in increasing order, then the completion key of a newly completed record |
| ReadingRules.MilestonesExact | backend/src/reading/reading.service.ts:246-254 | an update earns a milestone exactly for the multiples of 25 above the old chapter and up to the new one |
| ReadingRules.RewardsJustified | backend/src/reading/reading.service.ts:235-261 | every reward is for this user and series, carries its key's trigger, and is justified by the largest chapter and completion |
| RewardSteps.MintStepInv | backend/src/ink/ink.service.ts:97-177 | every step of `mintEarning`, with any outcome, keeps the reward invariant |
| RewardSteps.BadgeStepInv | backend/src/badges/badges.service.ts:119-175 | every step of badge `mint` keeps the reward invariant |
| RewardSteps.RecordStepInv | backend/src/reading/reading.service.ts:58-142 | every step of `upsertRecord` keeps the reward invariant, even with its stale reads |
| RewardSteps.VoteStepInv | backend/src/submission/submission.service.ts:166-306 | every step of `castVote`, `_finalise` and the admin verdicts keeps the reward invariant |
| RewardSteps.ApproveStepInv | backend/src/submission/submission.service.ts:315-442 | every step of `_executeApproval` keeps the reward invariant |
| RewardSteps.RunInv | backend/src/ink/ink.service.ts:97-177 | the reward invariant holds after any interleaving of requests, failures, lost replies and crashes |
| RewardEffects.StepEffect | backend/src/ink/ink.service.ts:97-177 | every step of every thread leaves other threads alone, moves its own program counter along the request's code, and adds to the chain only what the thread then holds or loses with its reply |
| RewardHistory.TokenFates | backend/src/ink/ink.service.ts:122-177 | a held key or badge is minted, not mirrored and held by one thread; it counts as lost exactly if it is minted, not mirrored and held by nobody |
| RewardHistory.HeldProvenance | backend/src/ink/ink.service.ts:122-150 | whatever a live thread holds was added to the chain by that thread's own successful call, and the thread has held it ever since |
| RewardHistory.LostProvenance | backend/src/ink/ink.service.ts:122-177 | whatever was lost has an action that ended its holder, or the thread whose reply was lost, before the mirror write |
| RewardHistory.LostForGood | backend/src/ink/ink.service.ts:139-147 | what was lost stays minted and without a mirror row |
| RewardTheorems.UnmirroredAccountedFor | backend/src/ink/ink.service.ts:122-177 | a key or badge is minted but not mirrored if and only if one live thread holds what its own call added, or some action lost it |
| RewardTheorems.ExactlyOnce | backend/src/ink/ink.service.ts:97-177 | no key is minted twice; every ledger key is on chain; the minted keys without a row are exactly those in flight with the one thread that minted them, or lost by an action of the run |
| RewardTheorems.MintedMinusCredited | backend/src/ink/ink.service.ts:151-177 | for every user, INK minted on chain minus INK credited is the sum over the keys without a row, which are exactly the keys in flight or lost |
| RewardTheorems.CreditedByHolder | backend/src/ink/ink.service.ts:122-177 | a ledger row appears only in the write of the one thread whose own chain call minted the key, and which has held it since |
| RewardTheorems.LedgerRowIsNew | backend/src/ink/ink.service.ts:154-164 | the `update` branch of the ledger upsert is unreachable |
| RewardTheorems.BadgesOnce | backend/src/badges/badges.service.ts:119-175 | no badge is minted twice or mirrored twice, every row is on chain, and the badges without a row are exactly those in flight with the one thread that minted them, or lost |
| RewardTheorems.BadgeRowByHolder | backend/src/badges/badges.service.ts:154-170 | a badge row appears only in the write of the one thread whose own chain call minted the badge, and which has held it since |
| RewardTheorems.MirrorConserved | backend/src/submission/submission.service.ts:377-417 | after any run, balance = totalInkEarned = ledger sum = 10 chapter rows + 100 completion rows + 50 approval rows |
| RewardTheorems.ReadingKeysEarned | backend/src/reading/reading.service.ts:69-100 | whatever failed or interleaved, a reading key on chain was earned: an update of that series, a request that reached the mark, a request that reached the last live chapter |
| BadgeHistory.BadgesEarned | backend/src/reading/reading.service.ts:279-319 | whatever failed or interleaved, a badge on chain was earned: FIRST_CHAPTER by a reading update of its owner, SERIES_COMPLETIONIST by a request that reached the last live chapter, SUBMISSION_APPROVED by an approval minted to its owner; there is no other badge |
| RewardTheorems.RewardClaimedIffPaid | backend/src/submission/submission.service.ts:379-417 | `rewardClaimed` is true exactly if the approval's ledger row exists; it is worth 50 INK to the submitter and minted at most once |
| RewardTheorems.ClaimsPersist | backend/src/submission/submission.service.ts:380-387 | a claimed reward stays claimed through every step |
| RewardTheorems.VotesBackedByLedger | backend/src/submission/submission.service.ts:191-211 | the weight on a submission is at most its voters' balances, so a met quorum means those voters hold at least 500 INK of ledger entries |
| VerdictRaces.ApprovalLostOnlyToReject | backend/src/submission/submission.service.ts:280-304 | an APPROVED submission loses its status in a step exactly if that step is the REJECTED write of a thread past its check |
| VerdictRaces.ApprovedForGoodExactly | backend/src/submission/submission.service.ts:270-306 | APPROVED is kept by every continuation if and only if no live thread is about to write REJECTED |
| VerdictRaces.RejectionLostOnlyToApproval | backend/src/submission/submission.service.ts:379-417 | a REJECTED submission loses its status in a step exactly if that step is the approval transaction of a thread past its chain call whose submitter has a passport; it is then APPROVED and 50 INK are paid |
| VerdictRaces.RejectedForGoodExactly | backend/src/submission/submission.service.ts:321-417 | in any reachable state, REJECTED is kept by every continuation if and only if no live thread can still bring an approval through: past its chain call, at a call the chain accepts, or at its check with the key unused and the badge within reach |
| VoteRaces.VotesChangeOnlyByUpsert | backend/src/submission/submission.service.ts:201-205 | stored votes change in a step exactly if a vote past its checks upserts a row that is not stored yet; a decided submission stays decided |
| VoteRaces.VotesForGoodExactly | backend/src/submission/submission.service.ts:179-205 | in any reachable state, the votes of a decided submission are kept by every continuation if and only if no vote is past its status check with a row still to store |
| VerdictRuns.RejectOverwritesApproval | backend/src/submission/submission.service.ts:449-490 | a concrete interleaving of two admins that pays 50 INK and ends REJECTED |
| VerdictRuns.ApproveOverwritesRejection | backend/src/submission/submission.service.ts:449-490 | the same two requests in the other order: REJECTED first, then APPROVED with 50 INK paid |
| VerdictHistory.InterleavedApprovalSound | backend/src/submission/submission.service.ts:207-219 | in every interleaved run, an approval no admin asked for means the stored votes had a quorum and 5·approve ≥ 3·total at some moment |
| VerdictHistory.InterleavedRejectionSound | backend/src/submission/submission.service.ts:183-219 | in every interleaved run, a rejection no admin asked for means the stored votes had a quorum and 5·approve < 2·total at some moment, or the deadline had passed without an approving tally |
| RewardServices.MintAlone | backend/src/ink/ink.service.ts:89-177 | from any state of the machine, a mint thread that runs alone does what the sequential `mintEarning` does |
| RewardServices.TasksAlone | backend/src/reading/reading.service.ts:263-319 | a milestone check that runs alone works through its rewards and badges in order; a rollback or a badge the chain refuses ends it |
| RecordThreads.RecordAlone | backend/src/reading/reading.service.ts:53-153 | from any state of the machine, an `upsertRecord` thread that runs alone leaves the records, ledger, balances and minted keys of the sequential update; with a passport and a badge mirror in step it adds exactly the badges of this update |
| RecordThreads.TasksExactly | backend/src/reading/reading.service.ts:279-319 | after its rewards an update mints SERIES_COMPLETIONIST exactly if it newly completes the record, and FIRST_CHAPTER exactly if the record is new |
| RewardServices.ApprovalAlone | backend/src/submission/submission.service.ts:315-442 | an approval thread that runs alone changes all of chain, ledger, balance, submission and badge row, only the chain, or nothing, by how the call and the write end |
| RewardServices.FinaliseAlone | backend/src/submission/submission.service.ts:270-306 | `_finalise` as a thread that runs alone leaves the submissions of the sequential `_finalise` |
| RewardServices.VoteAlone | backend/src/submission/submission.service.ts:166-229 | `castVote` as a thread that runs alone leaves the submissions of the sequential `castVote`, with the mirror's balance as weight |
| RewardServices.RewardService.FindBadge | backend/src/badges/badges.service.ts:119-126 | finds a row of the badge if and only if there is one |
| RewardServices.RewardService.MintBadge | backend/src/badges/badges.service.ts:108-175 | the sequential badge mint is the machine's badge thread; it reports a row exactly if there was one, calls the chain otherwise, and adds one row naming the new object exactly if the chain accepts, the reply arrives and the write succeeds; INK and submissions are untouched |
| RewardServices.RewardService.ExecuteApproval | backend/src/submission/submission.service.ts:315-442 | the sequential approval is the machine's approval thread; it succeeds exactly if the chain accepts the key and the badge, the reply arrives, the write succeeds, and submission and passport exist; then the submission is APPROVED and claimed, 50 INK are credited with the transaction's digest, and a missing badge row is added; otherwise the mirror is unchanged |
| Reading.ReadingService.MintEarning | backend/src/ink/ink.service.ts:89-206 | each of the four outcomes exactly by key, ledger row and passport; a mint adds one ledger row with the digest, adds 10, 100 or 50 INK to balance and passport total, and returns that amount, the new balance and the level of the new total; a cached call changes nothing and returns the row's digest and amount |
| Reading.MintExactly | backend/src/ink/ink.service.ts:97-206 | the specified mint has exactly that outcome, effect and receipt |
| Reading.RetryReturnsReceipt | backend/src/ink/ink.service.ts:97-115 | a retry of a successful mint changes nothing and returns the same digest, amount, balance and level |
| Reading.ReadingService.FireRewards | backend/src/reading/reading.service.ts:263-277 | the reward loop swallows conflicts and stops at any other error |
| Reading.FireAttemptsAll | backend/src/reading/reading.service.ts:263-277 | with a passport, every reward of the list ends up recorded or on chain: a conflict never stops the loop |
| Reading.FireStopsAtRollback | backend/src/reading/reading.service.ts:263-277 | a reward whose mirror transaction rolls back is the last one minted |
| Reading.ReadingService.UpsertRecord | backend/src/reading/reading.service.ts:53-153 | each error exactly by its cause; an accepted update writes this record only: the chapter never drops, a COMPLETED record stays COMPLETED on READING, COMPLETED on another record is stored exactly at or past the last live chapter and else becomes READING, any other status is stored as asked, and the completion date is set when the record becomes COMPLETED and kept otherwise |
| Reading.UpsertStores | backend/src/reading/reading.service.ts:79-119 | the same rule for the specified update, from any state |
| Reading.RuleFollowed | backend/src/reading/reading.service.ts:86-119 | the status decision and the upsert together follow the rule for every earlier row, request and last chapter |
| Reading.ReadingService.DeleteRecord | backend/src/reading/reading.service.ts:186-203 | deletes this record exactly if it exists and its user has a passport; otherwise nothing changes |
| Reading.MintedKeysExact | backend/src/reading/reading.service.ts:235-277 | without failures, the keys minted for a user and series are exactly the first-chapter key if ever visited, the marks 25..25·⌊M/25⌋ for the largest chapter M, and the completion key if ever earned; the ledger holds the same keys |
| Reading.PathIndependent | backend/src/reading/reading.service.ts:186-203 | two histories of updates, deletes and re-adds with the same visit, maximum and completion mint the same keys |
| Reading.CompletionIsEarned | backend/src/reading/reading.service.ts:73-119 | a COMPLETED record had at some moment reached the last live chapter; since then it exists, has not moved back and has a completion date |
| Reading.CompletedAtSurvives | backend/src/reading/reading.service.ts:112-118 | only deleting the record clears a completion date |
| Tally.BuildTally | backend/src/submission/submission.service.ts:60-101 | one pass with four accumulators; expired means past the deadline, the quorum is 500, and finalisable means a quorum with one of the two exact fractions |
| Tally.OneMoreVote | backend/src/submission/submission.service.ts:60-76 | a row with vote 1 adds one to the approvals and its weight to the approving INK, any other row the same to the rejections; no rows give zeros |
| Tally.BpsExact | backend/src/submission/submission.service.ts:84-88 | the truncated basis-point tests equal 5·approve ≥ 3·total and 5·approve < 2·total |
| Tally.FinalisableExactly | backend/src/submission/submission.service.ts:77-88 | finalisable means a total of at least 500 and one of the two exact fractions |
| Tally.AutoAndLazyAgree | backend/src/submission/submission.service.ts:214-219 | automatic and lazy finalisation decide alike on every finalisable vote set; lazy approval is exactly quorum and 3/5 |
| Tally.DisplayedPercentage | backend/src/submission/submission.service.ts:79-82 | the shown percentage is the exact one cut to one decimal; it is at least 60.0 or below 40.0 exactly when the tests hold, except that it is 0 without any INK |
| Tally.OrderIrrelevant | backend/src/submission/submission.service.ts:207-211 | the tally and both decisions do not depend on the order of the vote rows |
| Tally.UpsertVote | backend/src/submission/submission.service.ts:201-205 | one row per voter; the other voters' rows stay |
| ClientTally.Vote | frontend/stores/submission.store.ts:56-113 | the `-=`, `+=` and `++` of the map callback: the earlier vote's side loses the new weight, the new vote's side gains it, and the expired flag stays |
| ClientTally.IncrementalTallyExact | frontend/stores/submission.store.ts:64-89 | from the server's tally, the sums equal a recount after the upsert if and only if the voter is new or their weight is unchanged; the counts always do |
| ClientTally.IncrementalTallyRefines | frontend/stores/submission.store.ts:89-97 | under that condition quorum, finalisable and expired equal the recount's, and the shown percentage, rounded to one decimal, is the server's or 0.1 above |
| Dao.SubmissionService.CastVote | backend/src/submission/submission.service.ts:166-229 | each reply exactly by its cause: a failing approval is reported as such, and Ok tells whether the tally was decisive; a vote in time with INK is stored, a late one is not; the row becomes APPROVED and claimed or REJECTED exactly by 500 INK and the exact fractions; other submissions are untouched |
| Dao.SubmissionService.Finalise | backend/src/submission/submission.service.ts:270-306 | a PENDING submission is approved if the caller forces it or the votes reach quorum and 3/5, else rejected; only a failed approval leaves it PENDING, and a decided submission is left alone |
| Dao.SubmissionService.AdminApprove | backend/src/submission/submission.service.ts:449-470 | succeeds exactly for a PENDING submission whose approval goes through, which is then APPROVED and claimed with its votes kept; each error exactly by its cause, and without effect |
| Dao.SubmissionService.AdminReject | backend/src/submission/submission.service.ts:472-490 | succeeds exactly for a PENDING submission, which is then REJECTED and otherwise as before; each error exactly by its cause, and without effect |
| Dao.VerdictFreezes | backend/src/submission/submission.service.ts:179-181 | APPROVED and REJECTED absorb: status, votes and claim never change again |
| Dao.DecisionSound | backend/src/submission/submission.service.ts:214-219 | the vote that decides a submission decides by the exact fractions, or after the deadline without an approving tally |
| Dao.ApprovalSound | backend/src/submission/submission.service.ts:270-306 | approval without an admin implies a total of at least 500 and 5·approve ≥ 3·total |
| Dao.RejectionSound | backend/src/submission/submission.service.ts:270-306 | rejection without an admin implies a quorum with 5·approve < 2·total, or a late vote and no approving tally |
| Dao.NoDecisiveTallyIsPending | backend/src/submission/submission.service.ts:211-221 | if chain calls succeed, no PENDING submission has a quorum and a decisive tally |
| Bootstrap.Find | backend/src/auth/auth.service.ts:275-288 | finds an owned object of the given kind if and only if the chain has one |
| Bootstrap.AuthService.Execute | backend/src/sui/bootstrap.service.ts:43-98 | one transaction appends all three objects or none, whether or not the reply arrives |
| Bootstrap.AuthService.FinalizeBootstrap | backend/src/auth/auth.service.ts:237-268 | the passport row and the completed user with both other ids are written together, or nothing is |
| Bootstrap.AuthService.CreateUserWithBootstrap | backend/src/auth/auth.service.ts:129-172 | succeeds exactly if the wallet is free and nothing fails; the chain gains one set of objects exactly if the wallet is free and the call commits; a stopped login leaves a PENDING row that the next one resumes |
| Bootstrap.AuthService.ResumePendingBootstrap | backend/src/auth/auth.service.ts:187-231 | succeeds exactly if nothing fails, or the chain has all three objects and the final write works; objects are created exactly if one is missing and the call commits; success stores ids of this wallet's objects |
| Bootstrap.AuthService.CompleteZkLogin | backend/src/auth/auth.service.ts:72-122 | success, new chain objects and the account's own rows, each exactly by account, wallet, chain and stopping point; a complete account only takes over a drifted address that no other account holds; other accounts are untouched |
| Bootstrap.NoOrphansNoDuplicates | backend/src/auth/auth.service.ts:174-186 | after any crashed or finished logins a wallet owns at most one object of each kind, and all three or none |
| Bootstrap.CompleteNamesObjects | backend/src/auth/auth.service.ts:237-268 | `complete` implies the stored ids name the wallet's passport, library and journal |
| Bootstrap.NextLoginCompletes | backend/src/auth/auth.service.ts:129-231 | a crash-free login completes exactly if the account exists or no other account holds its wallet address |
| Bootstrap.RecoveryWithDistinctWallets | backend/src/auth/auth.service.ts:129-231 | with one wallet per account, the first crash-free login after any crashes completes |
| Bootstrap.CompleteIsStable | backend/src/auth/auth.service.ts:88-106 | further logins of a complete account change no row and create nothing |
| AdminUsers.AdminUsersService.CreateUser | backend/src/admin/users/admin-users.service.ts:72-98 | success adds exactly one active account with the given role and a previously unused email and changes nothing else; a used email is refused, and a refusal changes nothing |
| AdminUsers.AdminUsersService.RequestRoleChange | backend/src/admin/users/admin-users.service.ts:104-147 | accepted exactly from an active SUPER_ADMIN session for another active account below SUPER_ADMIN with a different role and no request awaiting review; the one new request is PENDING and holds the role asked for, the target's current role and the requester; each other error by its cause, and a refusal changes nothing |
| AdminUsers.AdminUsersService.ApproveRoleChange | backend/src/admin/users/admin-users.service.ts:155-209 | accepted exactly from an active SUPER_ADMIN session other than the requester's for a PENDING request whose target is another active account that still has the previous role; the target gets the requested role and loses its sessions, the request names the deciding account; a refusal changes nothing |
| AdminUsers.AdminUsersService.RejectRoleChange | backend/src/admin/users/admin-users.service.ts:215-243 | accepted exactly for a PENDING request from an active SUPER_ADMIN session; it becomes CANCELLED if the requester is the reviewer and REJECTED otherwise, names the deciding account, and no account or session changes; a refusal changes nothing |
| AdminUsers.AdminUsersService.DeactivateUser | backend/src/admin/users/admin-users.service.ts:260-281 | accepted exactly for an existing target that is not a SUPER_ADMIN; the target is inactive and has no session left, everything else stays; a refusal changes nothing |
| AdminUsers.AdminUsersService.ActivateUser | backend/src/admin/users/admin-users.service.ts:283-293 | success, for any existing target of an active SUPER_ADMIN, makes the target active and leaves other accounts, requests and sessions alone; a refusal changes nothing |
| AdminUsers.SupersNeverShrink | backend/src/admin/users/admin-users.controller.ts:28-31 | the set of active SUPER_ADMIN accounts never shrinks over a run |
| AdminUsers.FourEyesHolds | backend/src/admin/users/admin-users.service.ts:164-206 | an approved change names two distinct accounts, neither the target, both active SUPER_ADMINs now |
| AdminUsers.PendingIsCurrent | backend/src/admin/users/admin-users.service.ts:127-145 | a target has at most one PENDING request and its previous role is the current role |
| AdminUsers.StaleRoleNeverFires | backend/src/admin/users/admin-users.service.ts:182-186 | the stale-role conflict is unreachable |
| AdminUsers.RoleHistoryIsChain | backend/src/admin/users/admin-users.service.ts:188-206 | the approved requests in order link the role at creation to the current role |
| AdminUsers.RequestOrigin | backend/src/admin/users/admin-users.service.ts:137-145 | every request of a run holds exactly the target, role and requester of the operation that created it |
| AdminUsers.ApprovalGivesAskedRole | backend/src/admin/users/admin-users.service.ts:188-206 | the approval of a request gives the target exactly the role that the creating operation asked for |
| ChapterFeed.FetchAll | backend/src/series/adapters/mangadex.adapter.ts:72-127 | the page loop ends; it fails exactly if a page it asks for is down, and otherwise collects every numbered item once |
| ChapterFeed.ListChapters | backend/src/series/adapters/mangadex.adapter.ts:67-143 | unless a page is down, the one listing of the feed: strictly increasing, exactly the feed's numbers, each with the id, title, language, pages and date of the first item of its number if that is undated, else of the earliest dated one, first among ties |
| ChapterFeed.KeepOnePerNumber | backend/src/series/adapters/mangadex.adapter.ts:129-140 | the map filled in place is the specified fold |
| ChapterFeed.SortByNumber | backend/src/series/adapters/mangadex.adapter.ts:141-143 | the values of the map in strictly increasing order |
| ChapterFeed.DedupeKeeps | backend/src/series/adapters/mangadex.adapter.ts:129-140 | a number is in the map exactly if some entry has it, with the first entry if that is undated, else the earliest dated, first among ties |
| ChapterFeed.KeptUnique | backend/src/series/adapters/mangadex.adapter.ts:129-140 | that rule determines one entry |
| ChapterFeed.SortedValuesUnique | backend/src/series/adapters/mangadex.adapter.ts:141-143 | there is only one such list, whatever sort is used |
| ChapterFeed.ListingMatchesFeed | backend/src/series/adapters/mangadex.adapter.ts:101-143 | the listing increases strictly, has exactly the feed's valid numbers, and shows the kept entry of each |
| ChapterFeed.SortedIsListing | backend/src/series/adapters/mangadex.adapter.ts:101-143 | the sorted, deduplicated feed is a listing in that sense, item by item |
| ChapterFeed.OneListing | backend/src/series/adapters/mangadex.adapter.ts:101-143 | a feed has only one listing |
| ChapterFeed.ListingIdsDistinct | backend/src/series/adapters/mangadex.adapter.ts:107-117 | distinct feed ids stay distinct in the listing |
| ChapterSync.ChapterService.UpsertChapter | backend/src/series/chapter.service.ts:190-212 | fails without effect exactly if another row holds the external id; otherwise it writes id, title, page count and date of the item into its slot, keeps the row id, licence, cost and deletion mark of an existing row, creates a free, unlicensed row otherwise, and leaves other slots alone |
| ChapterSync.ChapterService.SyncFromSource | backend/src/series/chapter.service.ts:187-219 | the loop that skips failed upserts computes the specified fold |
| ChapterSync.TableAfter | backend/src/series/chapter.service.ts:187-219 | after any prefix of the feed, accepted items are written over the original rows and everything else is original |
| ChapterSync.SyncFrame | backend/src/series/chapter.service.ts:199-212 | rows outside the feed are untouched; id, isLicensed, inkCost and the deletion mark of existing rows never change; a row that is new shows an item of the feed and is unlicensed and free |
| ChapterSync.SyncShows | backend/src/series/chapter.service.ts:187-219 | after a sync the slot of every accepted item shows that item, and the slot of a skipped item is as before |
| ChapterSync.IdempotentExactly | backend/src/series/chapter.service.ts:170-172 | a second sync changes nothing if and only if no item's id is held by a row that a later accepted item takes over, acceptance being decided from the table and the listing |
| ChapterSync.AcceptedAsPredicted | backend/src/series/chapter.service.ts:190-217 | an item is written when its turn comes if and only if every other row that holds its id is taken over by an earlier accepted item |
| ChapterSync.AnyOrderExactly | backend/src/series/chapter.service.ts:187-219 | every order gives one table, and syncing is idempotent in every order, each if and only if no free item's row holds another item's id |
| ChapterSync.SyncTwiceDiffers | backend/src/series/chapter.service.ts:187-219 | a table and an increasing listing for which the second sync adds a row |
| ChapterSync.ListingDistinct | backend/src/series/adapters/mangadex.adapter.ts:129-143 | the adapter's listing meets what the sync theorems ask of a feed |
| Payments.PaymentService.BuildTipTransaction | backend/src/payment/payment.service.ts:65-199 | an unused key adds one PENDING row, paid to the creator, exactly if the amount is at least 10000, the sender is known, the series has a creator other than the sender, the balance covers the amount, the transaction is built and the row id is free; a used key changes nothing and returns its row's id exactly if that is PENDING with equal terms and the same checks pass; the error is the first fault in the order of the checks |
| Payments.PaymentService.ConfirmTip | backend/src/payment/payment.service.ts:206-284 | an own PENDING row becomes CONFIRMED with the digest exactly if the execution succeeds and no other row has the digest, FAILED exactly if the caller saw an error; each refusal by its cause and without effect; the transaction counts as executed unless the chain refused it |
| Payments.PaymentService.BuildSendTransaction | backend/src/payment/payment.service.ts:310-418 | the same for sends, without the series checks and paid to the given address |
| Payments.PaymentService.SubmitSend | backend/src/payment/payment.service.ts:426-496 | the same as for tips |
| Payments.RunSound | backend/src/payment/payment.service.ts:230-276 | in every reachable state a key and a digest name at most one row, and CONFIRMED holds exactly if the digest of a successful execution is stored |
| Payments.RowsPersist | backend/src/payment/payment.service.ts:214-276 | rows stay, their key, parameters and receiver never change, and CONFIRMED and FAILED rows never change at all |
| Payments.RepeatedBuild | backend/src/payment/payment.service.ts:79-106 | in every reachable state a repeated key changes nothing; it returns the row's id if and only if the row is PENDING with equal terms and amount, sender, creator, balance and transaction pass, and else the first fault |
| Payments.FirstBuild | backend/src/payment/payment.service.ts:65-199 | an unused key succeeds if and only if those checks pass and the row id is free, and adds one PENDING row with these terms, key and receiver; else the first fault, and nothing changes |
| Payments.OneKeyOnePayment | backend/src/payment/payment.service.ts:79-106 | over a run, all successful builds with one key have equal parameters and return one id |
| Payments.ConfirmedOnce | backend/src/payment/payment.service.ts:214-230 | a payment is confirmed at most once in a run |
| Payments.OverlappingConfirms | backend/src/payment/payment.service.ts:224-276 | for every PENDING row, a success and then a failure past the check leave a FAILED row that stores a digest |
| PaymentOverlap.BuildAlone | backend/src/payment/payment.service.ts:65-199 | a build whose two steps follow each other is the sequential build |
| PaymentOverlap.ConfirmAlone | backend/src/payment/payment.service.ts:206-284 | a confirmation whose two steps follow each other is the sequential one |
| PaymentOverlap.OverlapSound | backend/src/payment/payment.service.ts:163-276 | under every overlap a key, an id and a digest name at most one row, parameters and receiver never change, and CONFIRMED rows store an executed digest |
| PaymentOverlap.OutcomeOnSettled | backend/src/payment/payment.service.ts:245-276 | for every table, row and outcome, the write of a confirmation keeps a settled row if and only if the outcome is the one already recorded or cannot be stored |
| PaymentOverlap.SettledExactly | backend/src/payment/payment.service.ts:224-276 | a settled payment stays exactly as it is in every continuation if and only if no other confirmation of it is past its check |
| PaymentOverlap.BothExecute | backend/src/payment/payment.service.ts:230-276 | two successes past the check both execute on chain and only the later digest is stored |
| PaymentOverlap.CreateGivesOwnTerms | backend/src/payment/payment.service.ts:167-191 | the insert returns a payment with the caller's parameters if and only if the key is unused and the id free, or the winner of the key has equal parameters |
| PaymentOverlap.BuildGivesOwnTerms | backend/src/payment/payment.service.ts:79-191 | in every overlapping run, a build past its checks returns a payment with its own parameters under exactly that condition |
| PaymentOverlap.OneKeyOneId | backend/src/payment/payment.service.ts:162-191 | in every overlapping run, all successful builds with one key return one id |

## Left out

- Wallet addresses in the reward protocol: a badge or earning is recorded for the user id, so address drift between the mirror and the chain is not modelled there.
- Execution of a chain call long after its reply was given up: a lost reply means the chain has executed by then.
- Liveness after a lost reply: a later `mintEarning` reports a conflict and never repairs the mirror; only safety is stated.
- Passport counters (`seriesTracked`, `seriesCompleted`, `chaptersRead`, `level`): single increments without an invariant; their updates only appear as points where a request can stop.
- Reading.ReadingService.UpsertRecord: the badge mints of an update, which RecordThreads.RecordAlone adds, and its passport counters.
- Reading.MintedKeysExact: one request at a time and no failing call, because with failures only the inclusion of RewardTheorems.ReadingKeysEarned holds.
- Dao.VerdictFreezes: one request at a time; the interleaved form is false (VerdictRuns) and its exact conditions are in VerdictRaces and VoteRaces.
- ClientTally.IncrementalTallyExact: JavaScript numbers are exact integers and reals, so rounding of very large sums is not modelled.
- Interleaved logins and role changes.
- Bootstrap: Google token checks, salts, session tokens and the uniqueness of any column other than the wallet address and the account's claims.
- AdminUsers: reasons, timestamps, password hashes and the audit log; a request names its target, roles, status, requester and reviewer.
- ChapterFeed: parsing of chapter numbers and dates and trimming of titles are done before an item enters the model; the feed does not change during a listing.
- ChapterSync: database failures other than the unique external id, and when a sync is triggered.
- Payments: the transaction bytes and signatures; whatever bytes are confirmed are an input with an outcome. A lost reply marks the row FAILED although the chain executed, and a failed final write leaves it PENDING.
- Gas sponsorship, zkLogin proofs, Walrus and MemWal storage, journals, series search, creators, pagination of lists, admin tokens and all pages of the frontend.
