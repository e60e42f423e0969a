# Voting dApp — a Dafny model

The system is a Solana voting application. Its on-chain side is an Anchor program with seven instructions:

- `initialize` creates the global state;
- `initialize_user_profile` creates a user's profile;
- `create_proposal` publishes a proposal with 2 to 10 options and a voting window;
- `cast_vote` records one vote per voter and proposal;
- `finalize_proposal` closes a proposal after its window;
- `emergency_stop` and `resume_operations` switch the program off and on.

Every account lives at a program-derived address computed from fixed seeds. Anchor checks the accounts an instruction is given before the handler runs.

The off-chain side is a TypeScript client with these parts:

- a transaction service that retries a submission with growing delays, waits for confirmation and keeps a record of every transaction;
- a proposal service that reads proposals and tallies votes;
- two error helpers (`handleError`, and the `ErrorService` singleton with its handlers and log);
- the components that validate and submit a proposal, cast a vote, label, filter and list proposals, and filter past proposals by time range.

## How the model is organised

- `program_accounts.dfy` (ProgramAccounts) holds the account records, the two error enums, and the address scheme. A program address is the list of its seeds, so two derivations agree exactly when their seeds do. Integer seeds are their 8 little-endian bytes: `u64::to_le_bytes`, and `i64::to_le_bytes` as the value modulo 2^64.
- `voting_program.dfy` (VotingProgram) gives each instruction as a function from the ledger's accounts to an outcome and the accounts afterwards. Each function runs, in Anchor's order, the account loading, the `init` derivations, the seeds / `has_one` / `constraint` checks, then the handler's `require!` guards and writes. A Rust panic (`checked_add(..).unwrap()`, an out-of-range index) is the outcome `Aborted`. Any failure leaves the accounts unchanged.
- `program_ledger.dfy` (ProgramLedger) is the ledger as a class with one map field per account kind. Each instruction is a method that updates the maps in place. Each method is proved to produce exactly the step the matching VotingProgram function describes.
- `voting_properties.dfy` (VotingProperties) proves properties of the program as written:
  - one global state, one profile per user and one vote per voter and proposal;
  - an emergency stop blocks proposals and votes;
  - finalisation happens once;
  - an invariant holds of every reachable ledger.
- `account_sizes.dfy` (AccountSizes) gives the Borsh size of each account record and compares it with the `space` its `init` allocates. The instruction functions do not apply this check (see Left out); the lemmas there show where the allocated space is too small, and what space would suffice.
- `voting_corrected.dfy` (VotingCorrected) holds the corrected instructions that the findings below call for, and the lemmas that contrast the two versions.
- The client modules are `transaction_service.dfy`, `proposal_service.dfy`, `error_handling.dfy`, `error_service.dfy`, `create_proposal_form.dfy`, `vote_form.dfy`, `proposal_card.dfy`, `proposal_list.dfy` and `historical_data_view.dfy`. Their shared vocabulary lives in `client_types.dfy` and `js_values.dfy`: a caught JavaScript value, reading `.message` from it, `includes`, `trim`, and what an awaited call did. Classes stand for the service objects and for the components' state. Clocks, RPC calls and the wallet become parameters: a millisecond time `nowMs`, and an oracle describing what each awaited call resolved or threw.

Points where the code behaves differently from what a reader might expect:

- A second vote by the same voter would fail with Anchor's `AccountAlreadyInUse` on the vote account, so the handler's `AlreadyVoted` guard can never fire.
- The retry delays grow linearly (1 s, 2 s, ...).
- `create_proposal` reports one specific error per check, and it accepts empty option strings.
- `total_votes` adds each vote's weight.
- A vote never succeeds (see Findings).
- A transaction is either confirmed or failed: a confirmation that throws counts as a failure.

## Model

| member | source | states |
|---|---|---|
| ProgramAccounts.LeU64Injective | programs/voting-d-app/src/lib.rs:220 | two `u64::to_le_bytes` seeds are equal if and only if the numbers are equal |
| ProgramAccounts.LeI64MatchesLeU64 | programs/voting-d-app/src/lib.rs:289 | the `i64` seed of `created_at` equals the `u64` seed of a counter if and only if they agree modulo 2^64 |
| ProgramAccounts.FromLeOfLeBytes | programs/voting-d-app/src/lib.rs:220 | little-endian encoding of a number below 256^n into n bytes decodes back to that number |
| ProgramAccounts.LeI64 | programs/voting-d-app/src/lib.rs:289 | `i64::to_le_bytes` gives 8 bytes and agrees with the `u64` encoding on non-negative values |
| ProgramAccounts.ProposalAddressesDistinct | programs/voting-d-app/src/lib.rs:218-221 | one authority's proposals created under different counter values get different addresses |
| ProgramAccounts.GlobalStateAddress | programs/voting-d-app/src/lib.rs:203 | the global state's address is derived from the single seed b"global_state" |
| ProgramAccounts.UserProfileAddress | programs/voting-d-app/src/lib.rs:235 | a profile's address is derived under b"user_profile" from its owner's key |
| ProgramAccounts.ProposalAddress | programs/voting-d-app/src/lib.rs:220 | a proposal's address is derived under b"proposal" from the authority's key and the counter bytes |
| ProgramAccounts.VoteAddress | programs/voting-d-app/src/lib.rs:260 | a vote's address is derived under b"vote" from the voter's key and the proposal's key |
| ProgramAccounts.AddressesDistinct | programs/voting-d-app/src/lib.rs:199-263 | the four kinds of address never collide; one profile per user, one vote account per voter and proposal, one proposal address per authority and counter; no wallet is one of them |
| VotingProgram.Reject | programs/voting-d-app/src/lib.rs:401-447 | a failed instruction reports an error and leaves every account as it was |
| VotingProgram.Initialize | programs/voting-d-app/src/lib.rs:9-26 | succeeds if and only if the global-state address is the `[b"global_state"]` derivation and not yet in use; sets the signer as authority, zero counters, periods 3600 and 604800, not stopped; touches nothing else |
| VotingProgram.InitializeUserProfile | programs/voting-d-app/src/lib.rs:169-191 | on success the profile sits at the signer's `[b"user_profile", signer]` address, was unused, holds the username with zero counts, and `total_users` grows by one; all else unchanged |
| VotingProgram.CreateProposal | programs/voting-d-app/src/lib.rs:28-74 | on success the accounts passed Anchor's checks, title ≤ 100 and description ≤ 1000 bytes, 2..10 options, `now - 60 ≤ start < end`; exactly one new proposal, stored as `NewProposal` describes, the others unchanged; both counters grow by one; once the accounts pass, the handler's errors come in the source's order; conversely, valid accounts, passing guards and counters below `u64::MAX` give success |
| VotingProgram.NewProposal | programs/voting-d-app/src/lib.rs:52-62 | the stored proposal holds the signer as authority, the title, description, options and window as given, zero votes, active, created now, not finalized, and an empty `vote_counts` because the handler never assigns it |
| VotingProgram.CastVote | programs/voting-d-app/src/lib.rs:76-115 | on success the vote is inside the window, the index is valid, the weight is positive, exactly one vote account is added, and the weight goes to the total and to that option's count; once the accounts pass, the three guards fail in the source's order; `AlreadyVoted` never comes out |
| VotingProgram.CastVoteHandler | programs/voting-d-app/src/lib.rs:82-112 | the handler alone: a failure changes nothing; global state and profiles never change; window, then index against the option count's low byte, then weight; `AlreadyVoted` never; no success unless `vote_counts` has the chosen entry; on success exactly the new vote record and the weight added to the total and to that count, with no overflow |
| VotingProgram.FinalizeProposal | programs/voting-d-app/src/lib.rs:117-135 | succeeds only for an active proposal whose address re-derives from `created_at`, signed by its authority after its end; it then sets inactive and `finalized_at`; an inactive proposal always fails |
| VotingProgram.GlobalSwitchAccounts | programs/voting-d-app/src/lib.rs:296-320 | the global-state account passes if and only if it exists at the `[b"global_state"]` address |
| VotingProgram.EmergencyStop | programs/voting-d-app/src/lib.rs:137-151 | succeeds if and only if the authority signs; any other signer gets `UnauthorizedAccess`; sets the stop flag and the stop time and nothing else |
| VotingProgram.ResumeOperations | programs/voting-d-app/src/lib.rs:153-167 | succeeds if and only if the authority signs; clears the flag and the stop time and nothing else |
| VotingProgram.Execute | programs/voting-d-app/src/lib.rs:6-192 | one transaction: a failed one changes nothing; no instruction closes an account or rewrites a vote record |
| VotingProgram.Run | programs/voting-d-app/src/lib.rs:6-192 | a sequence of transactions keeps every account that existed and every vote record unchanged |
| ProgramLedger.Ledger.constructor | programs/voting-d-app/src/lib.rs:346-399 | a new ledger holds no accounts |
| ProgramLedger.Ledger.Initialize | programs/voting-d-app/src/lib.rs:9-26 | updating the maps in place yields exactly the outcome and accounts of `VotingProgram.Initialize` |
| ProgramLedger.Ledger.InitializeUserProfile | programs/voting-d-app/src/lib.rs:169-191 | in place, exactly `VotingProgram.InitializeUserProfile` |
| ProgramLedger.Ledger.CreateProposal | programs/voting-d-app/src/lib.rs:28-74 | in place, exactly `VotingProgram.CreateProposal` |
| ProgramLedger.Ledger.CastVote | programs/voting-d-app/src/lib.rs:76-115 | in place, exactly `VotingProgram.CastVote` |
| ProgramLedger.Ledger.CastVoteHandler | programs/voting-d-app/src/lib.rs:82-112 | the handler part of `cast_vote`, in place, exactly as its functional counterpart |
| ProgramLedger.Ledger.FinalizeProposal | programs/voting-d-app/src/lib.rs:117-135 | in place, exactly `VotingProgram.FinalizeProposal` |
| ProgramLedger.Ledger.EmergencyStop | programs/voting-d-app/src/lib.rs:137-151 | in place, exactly `VotingProgram.EmergencyStop` |
| ProgramLedger.Ledger.ResumeOperations | programs/voting-d-app/src/lib.rs:153-167 | in place, exactly `VotingProgram.ResumeOperations` |
| AccountSizes.ElementsSizeUniform | programs/voting-d-app/src/lib.rs:219 | n strings of a fixed length take n times four bytes more than that length |
| AccountSizes.ElementsSizeBound | programs/voting-d-app/src/lib.rs:219 | strings of bounded length take at most n times four bytes more than that bound |
| AccountSizes.GlobalStateFitsIffNoStopTime | programs/voting-d-app/src/lib.rs:202 | the global-state record fits its 90 bytes if and only if no stop time is stored |
| AccountSizes.EmergencyStopOverflows | programs/voting-d-app/src/lib.rs:137-151 | every `emergency_stop` the instruction model accepts writes a 91-byte record into the 90-byte account |
| AccountSizes.VoteOverflows | programs/voting-d-app/src/lib.rs:259 | every vote record needs 91 bytes, one more than the 90 allocated |
| AccountSizes.UserProfileFitsIffShortName | programs/voting-d-app/src/lib.rs:330 | a profile fits its 123 bytes if and only if the username has at most 46 bytes |
| AccountSizes.NewProposalFits | programs/voting-d-app/src/lib.rs:219 | a new proposal fits its 2174 bytes if and only if title, description and options take at most 2083 bytes, options counted with their lengths |
| AccountSizes.ProposalAtLimitsOverflows | programs/voting-d-app/src/lib.rs:219 | a proposal at the handler's limits (100-byte title, 1000-byte description, ten 100-byte options) needs 2231 bytes |
| AccountSizes.GlobalStateAlwaysFitsFixed | programs/voting-d-app/src/lib.rs:202 | with the option's tag byte counted (91 bytes), the global state always fits |
| AccountSizes.VoteFitsFixed | programs/voting-d-app/src/lib.rs:259 | with both one-byte fields counted (91 bytes), every vote record fits |
| AccountSizes.UserProfileFitsFixed | programs/voting-d-app/src/lib.rs:330 | with the length prefix counted (127 bytes), a profile fits if and only if the username has at most 50 bytes |
| AccountSizes.ProposalFitsFixed | programs/voting-d-app/src/lib.rs:219 | with every length prefix, the tag byte and ten counts counted, any proposal within the handler's limits and with options of at most 100 bytes fits |
| VotingProperties.SumUpdate | programs/voting-d-app/src/lib.rs:109-112 | raising one count changes the sum of the counts by the same amount |
| VotingProperties.CastVoteKeepsTally | programs/voting-d-app/src/lib.rs:109-112 | a proposal whose total equals the sum of its counts keeps that equality after any `cast_vote` |
| VotingProperties.InitializeOnce | programs/voting-d-app/src/lib.rs:199-206 | after a successful `initialize`, every further `initialize` fails |
| VotingProperties.UserProfileOnce | programs/voting-d-app/src/lib.rs:326-333 | a user's second `initialize_user_profile` fails |
| VotingProperties.CastVoteOnce | programs/voting-d-app/src/lib.rs:256-263 | after a vote lands, the same voter's second vote on that proposal fails with `AccountAlreadyInUse` |
| VotingProperties.StoppedBlocksCreateProposal | programs/voting-d-app/src/lib.rs:229 | while stopped, `create_proposal` always fails and changes nothing |
| VotingProperties.StoppedBlocksCastVote | programs/voting-d-app/src/lib.rs:252 | while stopped, `cast_vote` always fails and changes nothing |
| VotingProperties.ResumeUndoesStop | programs/voting-d-app/src/lib.rs:137-167 | `resume_operations` after `emergency_stop` restores the flag and the stop time |
| VotingProperties.FinalizeTwice | programs/voting-d-app/src/lib.rs:123 | a second finalisation fails with `ProposalAlreadyFinalized` |
| VotingProperties.NoVoteAfterFinalize | programs/voting-d-app/src/lib.rs:82-86 | with a clock that does not run backwards, no vote lands on a finalized proposal |
| VotingProperties.EmptyConsistent | programs/voting-d-app/src/lib.rs:346-399 | the empty ledger satisfies the reachable-state invariant |
| VotingProperties.ProposalIndexOfAddress | programs/voting-d-app/src/lib.rs:220 | the counter seed of a proposal address reads back as that counter |
| VotingProperties.CreateProposalKeepsConsistent | programs/voting-d-app/src/lib.rs:211-241 | `create_proposal` keeps the invariant: every proposal sits at its authority's address under an already used counter, with empty counts, and no vote exists |
| VotingProperties.InitializeKeepsConsistent | programs/voting-d-app/src/lib.rs:194-209 | `initialize` keeps the invariant |
| VotingProperties.InitializeUserProfileKeepsConsistent | programs/voting-d-app/src/lib.rs:322-344 | `initialize_user_profile` keeps the invariant |
| VotingProperties.FinalizeKeepsConsistent | programs/voting-d-app/src/lib.rs:282-294 | `finalize_proposal` keeps the invariant |
| VotingProperties.EmergencyStopKeepsConsistent | programs/voting-d-app/src/lib.rs:296-307 | `emergency_stop` keeps the invariant |
| VotingProperties.ResumeKeepsConsistent | programs/voting-d-app/src/lib.rs:309-320 | `resume_operations` keeps the invariant |
| VotingProperties.ExecuteKeepsConsistent | programs/voting-d-app/src/lib.rs:6-192 | every instruction, successful or not, keeps the invariant |
| VotingProperties.RunKeepsConsistent | programs/voting-d-app/src/lib.rs:6-192 | any sequence of transactions keeps the invariant |
| VotingProperties.CastVoteNeverSucceeds | programs/voting-d-app/src/lib.rs:110 | in every reachable ledger, `cast_vote` fails |
| VotingProperties.CastVoteSeedsRejectCreatedProposals | programs/voting-d-app/src/lib.rs:250 | for an existing proposal, the `cast_vote` seeds check compares against the current counter and fails with `ConstraintSeeds` |
| VotingProperties.FinalizeSeedsNeedCreationCounter | programs/voting-d-app/src/lib.rs:289 | the finalize seeds check passes if and only if `created_at` modulo 2^64 equals the counter the proposal was created under |
| VotingProperties.FinalizeNeedsCreationCounter | programs/voting-d-app/src/lib.rs:289 | a successful finalisation implies that coincidence |
| VotingProperties.NoVoteIsEverRecorded | programs/voting-d-app/src/lib.rs:76-115 | from an empty ledger, no sequence of transactions creates a vote account |
| VotingCorrected.Zeros | programs/voting-d-app/src/lib.rs:360 | one zero count per option, summing to zero |
| VotingCorrected.CountBelowSum | programs/voting-d-app/src/lib.rs:109-112 | no option's count exceeds the total, so the count's `checked_add` cannot overflow when the total's does not |
| VotingCorrected.CreateProposalFixed | programs/voting-d-app/src/lib.rs:52-62 | the same outcome as `create_proposal`; on success the proposal also holds one zero count per option |
| VotingCorrected.CastVoteFixed | programs/voting-d-app/src/lib.rs:243-280 | `cast_vote` with the proposal taken as given; on success exactly one vote is recorded and its weight goes to the total and the chosen count |
| VotingCorrected.FinalizeProposalFixed | programs/voting-d-app/src/lib.rs:282-294 | succeeds if and only if the authority signs an active proposal after its end |
| VotingCorrected.CastVoteFixedRecords | programs/voting-d-app/src/lib.rs:101-112 | with sound tallies, a vote passing every guard is recorded, and the tallies stay sound |
| VotingCorrected.ExecuteFixedKeepsTallies | programs/voting-d-app/src/lib.rs:6-192 | every corrected instruction keeps each proposal's total equal to the sum of its counts |
| VotingCorrected.RunFixedKeepsTallies | programs/voting-d-app/src/lib.rs:6-192 | so does every sequence of them |
| VotingCorrected.TalliesAlwaysSound | programs/voting-d-app/src/lib.rs:347-361 | from an empty ledger the tallies are always sound |
| VotingCorrected.CreateThenVoteRejected | programs/voting-d-app/src/lib.rs:250 | as written, a vote on a just-created proposal fails on the proposal's seeds |
| VotingCorrected.CreateThenVoteRecorded | programs/voting-d-app/src/lib.rs:76-115 | corrected, that vote is recorded with its weight in the chosen count |
| VotingCorrected.EmptyCountsAbort | programs/voting-d-app/src/lib.rs:110 | as written, a vote that passes every guard aborts on the empty `vote_counts` |
| VotingCorrected.CreateThenFinalizeRejected | programs/voting-d-app/src/lib.rs:289 | as written, a proposal created at a time not equal to its counter can never be finalized |
| VotingCorrected.CreateThenFinalizeAccepted | programs/voting-d-app/src/lib.rs:117-135 | corrected, its author finalizes it once voting has ended |
| JsValues.MessageOf | app/src/services/errorService.ts:101 | reading `.message` throws a TypeError exactly on `undefined` or `null`; it yields an object's message, and nothing for any other falsy value |
| JsValues.ContainsAt | app/src/services/errorService.ts:86 | `includes` finds a part if and only if it occurs at some position |
| JsValues.TrimStart | app/src/components/proposals/CreateProposalForm.tsx:51 | removes exactly the leading white space |
| JsValues.TrimEnd | app/src/components/proposals/CreateProposalForm.tsx:51 | removes exactly the trailing white space |
| JsValues.TrimEmptyIffBlank | app/src/components/proposals/CreateProposalForm.tsx:51 | `!s.trim()` holds if and only if `s` is white space only |
| TransactionService.EffectiveMaxRetries | app/src/services/transactionService.ts:79 | an absent or zero budget becomes the default 3; any other value is kept; the result is never zero |
| TransactionService.WaitForConfirmation | app/src/services/transactionService.ts:22-33 | true when the transaction landed without error; false when it landed with an error or the request threw |
| TransactionService.Backoff | app/src/services/transactionService.ts:47 | the n sleeps start at 1000 ms and grow by 1000 ms each |
| TransactionService.RetryFrom | app/src/services/transactionService.ts:41-52 | from attempt i the loop returns the first later signature within the budget, or rethrows the last error |
| TransactionService.Retry | app/src/services/transactionService.ts:35-53 | at most `maxRetries` calls; returns if and only if some attempt in the budget signs, and then the first such one; otherwise rethrows the last attempt's error, or `undefined` when the budget is not positive |
| TransactionService.DelaysOf | app/src/services/transactionService.ts:41-50 | one sleep after every failed call but the last: none when the first call decides, otherwise calls − 1 sleeps of 1000·(i+1) ms |
| TransactionService.SendResult | app/src/services/transactionService.ts:81-114 | fails with a TypeError if and only if `undefined` or `null` was rethrown; success if and only if a signature came back and landed without error, exactly when the status is CONFIRMED, otherwise FAILED; a signature is kept, with CONFIRM_FAILURE when unconfirmed; a rethrown error reports its message and no signature |
| TransactionService.Values | app/src/services/transactionService.ts:178-180 | lists the stored records in the given key order |
| TransactionService.SettledRecord | app/src/services/transactionService.ts:81-114 | the stored record is never left PENDING; it is CONFIRMED if and only if a signature was obtained and confirmed; its status and signature agree with the returned result |
| TransactionService.TransactionTracker.constructor | app/src/services/transactionService.ts:17-20 | starts with an empty transaction map |
| TransactionService.TransactionTracker.RetryTransaction | app/src/services/transactionService.ts:35-53 | the loop computes `Retry` and sleeps 1000·(i+1) ms after each failed attempt except the last |
| TransactionService.TransactionTracker.CreateTransaction | app/src/services/transactionService.ts:55-71 | stores one new PENDING record under a fresh id and changes nothing else |
| TransactionService.TransactionTracker.SendTransaction | app/src/services/transactionService.ts:73-115 | returns the result for the retry outcome and the confirmation, and stores exactly one new record, settled as `SettledRecord` describes |
| TransactionService.TransactionTracker.RecordSigned | app/src/services/transactionService.ts:83-103 | the path after a signature: one new record, settled by the confirmation |
| TransactionService.TransactionTracker.RecordExhausted | app/src/services/transactionService.ts:104-114 | the catch path: one new FAILED record with an empty signature and the thrown message |
| TransactionService.TransactionTracker.Update | app/src/services/transactionService.ts:88 | assigning fields of a stored record replaces only that record |
| TransactionService.TransactionTracker.GetTransaction | app/src/services/transactionService.ts:174-176 | returns the record stored under the id, and `undefined` if and only if there is none |
| TransactionService.TransactionTracker.AllTransactions | app/src/services/transactionService.ts:178-180 | every stored record exactly once |
| TransactionService.TransactionTracker.GetTransactionsByType | app/src/services/transactionService.ts:182-184 | exactly the stored records of that type, in listing order |
| TransactionService.TransactionTracker.GetTransactionsByStatus | app/src/services/transactionService.ts:186-188 | exactly the stored records with that status, in listing order |
| ProposalService.ToClientProposal | app/src/services/proposalService.ts:63-74 | the client record keeps every account field it lists, which read back unchanged, with the given id and key |
| ProposalService.GetProposal | app/src/services/proposalService.ts:59-80 | null if and only if the fetch fails or a `toNumber` conversion throws (a magnitude of 2^53 or more); otherwise the account's fields under the given id |
| ProposalService.FilterList | app/src/services/proposalService.ts:84-93 | no filter without `isActive`; otherwise one memcmp filter at offset 8 whose bytes are "1" if and only if `isActive` is true |
| ProposalService.BuildFilters | app/src/services/proposalService.ts:84-93 | pushing onto the empty array builds `FilterList` |
| ProposalService.GetAllProposals | app/src/services/proposalService.ts:82-113 | an empty list when the RPC call fails or any one account holds a number `toNumber` throws on; otherwise one projected proposal per fetched account, in order, with the key as id |
| ProposalService.CountInto | app/src/services/proposalService.ts:125-128 | the reduce adds each key's number of occurrences to its count |
| ProposalService.CountIntoTotal | app/src/services/proposalService.ts:125-128 | every key counted adds exactly one to the sum of the counts |
| ProposalService.Tally | app/src/services/proposalService.ts:125-135 | a key is present if and only if it occurs; its count is its number of occurrences; the counts sum to the number of votes |
| ProposalService.GetProposalResults | app/src/services/proposalService.ts:115-151 | null if and only if the proposal or the vote fetch fails or a conversion throws; otherwise the total is the number of votes, the results and the day distribution are their tallies, and the turnout is 65 |
| ProposalService.OptionKeyCount | app/src/services/proposalService.ts:126 | an option key is counted once per vote whose option prints to it |
| ProposalService.ResultsCountVotes | app/src/services/proposalService.ts:125-142 | an option's result is the number of votes for it |
| ProposalService.DecodeVote | programs/voting-d-app/src/lib.rs:364-373 | a decoded vote account has no `option` property, only an index |
| ProposalService.OnChainVotesTallyUndefined | app/src/services/proposalService.ts:125-128 | votes read from the program tally under the single key "undefined" |
| ErrorHandling.CodeName | app/src/utils/errorHandling.ts:41-65 | each code's value is a constant name: non-empty, starting with a capital, not ending in an underscore |
| ErrorHandling.Message | app/src/utils/errorHandling.ts:68-87 | each code's message is a sentence ending in a full stop |
| ErrorHandling.CodeNameInjective | app/src/utils/errorHandling.ts:41-65 | the error codes are pairwise distinct |
| ErrorHandling.NewAppError | app/src/utils/errorHandling.ts:24-37 | the constructor stores its arguments and names the error "AppError" |
| ErrorHandling.ConstructorDefaults | app/src/utils/errorHandling.ts:26-29 | with only a message: UNKNOWN, SYSTEM, 'UNKNOWN_ERROR', no details |
| ErrorHandling.Classify | app/src/utils/errorHandling.ts:99-136 | 'wallet' wins, then 'network' or 'fetch', then 'transaction' or 'solana', else unknown; each case holds if and only if its condition does |
| ErrorHandling.TypeOf | app/src/utils/errorHandling.ts:99-136 | WALLET, NETWORK and TRANSACTION each go with exactly their own code; no error made here is of type VALIDATION |
| ErrorHandling.CategoryOf | app/src/utils/errorHandling.ts:99-136 | USER goes with exactly the wallet code, BLOCKCHAIN with exactly the transaction code |
| ErrorHandling.HandleError | app/src/utils/errorHandling.ts:90-137 | an AppError is returned unchanged; `undefined` and `null` throw; any other value gets its class's code (UNKNOWN_ERROR for a falsy value without a message), table message, type, category, and the value as details |
| ErrorHandling.HandledMessageMatchesCode | app/src/utils/errorHandling.ts:68-87 | every error made carries its code's table message |
| ErrorHandling.HandleErrorIdempotent | app/src/utils/errorHandling.ts:94-96 | handling an error a second time changes nothing |
| ErrorService.Notify | app/src/services/errorService.ts:42 | each registered handler is called once with the error, in registration order |
| ErrorService.WalletRequest | app/src/services/errorService.ts:78-98 | a falsy error (`undefined`, `null`, `""`, `0`, ...) means not connected; 'insufficient funds' means insufficient balance; anything else means a failed connection, which alone keeps the original error |
| ErrorService.TransactionRequest | app/src/services/errorService.ts:100-120 | throws if and only if the error is `undefined` or `null`; 'timeout' comes before 'rejected', else failed (any other falsy value included), which alone keeps the original error |
| ErrorService.ProgramRequest | app/src/services/errorService.ts:122-135 | throws if and only if the error is nullish; the code is always PROGRAM_NOT_INITIALIZED; the message depends on 'not initialized' |
| ErrorService.Service.constructor | app/src/services/errorService.ts:5-8 | no handlers and an empty log |
| ErrorService.Service.CreateError | app/src/services/errorService.ts:17-59 | builds the error, appends it to the log and calls every handler once with it; the handlers stay |
| ErrorService.Service.RegisterHandler | app/src/services/errorService.ts:61-63 | appends the handler, duplicates allowed |
| ErrorService.Service.RemoveHandler | app/src/services/errorService.ts:65-67 | drops every registration of the handler and keeps the others, in order and with their multiplicities |
| ErrorService.Service.GetErrorLog | app/src/services/errorService.ts:69-71 | a fresh copy of the log |
| ErrorService.Service.ClearErrorLog | app/src/services/errorService.ts:73-75 | empties the log and keeps the handlers |
| ErrorService.Service.HandleWalletError | app/src/services/errorService.ts:78-98 | logs and dispatches the error `WalletRequest` describes |
| ErrorService.Service.HandleTransactionError | app/src/services/errorService.ts:100-120 | logs and dispatches the error `TransactionRequest` describes; on a nullish error it throws and logs nothing |
| ErrorService.Service.HandleProgramError | app/src/services/errorService.ts:122-135 | logs and dispatches the error `ProgramRequest` describes; on a nullish error it throws and logs nothing |
| ErrorService.Registry.constructor | app/src/services/errorService.ts:4 | no instance yet |
| ErrorService.Registry.GetInstance | app/src/services/errorService.ts:10-15 | creates the service on first use and returns that same service afterwards |
| ErrorService.GetInstanceTwice | app/src/services/errorService.ts:10-15 | two calls return the same service |
| CreateProposalForm.Seconds | app/src/components/proposals/CreateProposalForm.tsx:81-82 | `Math.floor(ms / 1000)`; NaN stays NaN |
| CreateProposalForm.FirstValidationFailure | app/src/components/proposals/CreateProposalForm.tsx:51-92 | the first failing check in the source's order, with its message; none if and only if every field is filled and start < end |
| CreateProposalForm.WithoutIndex | app/src/components/proposals/CreateProposalForm.tsx:37 | drops exactly the entry at the index, keeping the order; an index out of range changes nothing |
| CreateProposalForm.NoUpperBounds | app/src/components/proposals/CreateProposalForm.tsx:51-92 | the form accepts a 101-character title and 11 options, which the program refuses |
| CreateProposalForm.InvalidDatePasses | app/src/components/proposals/CreateProposalForm.tsx:84 | an unparsable date passes the start-before-end check |
| CreateProposalForm.Form.constructor | app/src/components/proposals/CreateProposalForm.tsx:18-29 | empty fields, two empty options, dialog closed |
| CreateProposalForm.Form.HandleAddOption | app/src/components/proposals/CreateProposalForm.tsx:31-33 | appends one empty option; every other field, the dialog, the reports and the calls stay |
| CreateProposalForm.Form.HandleRemoveOption | app/src/components/proposals/CreateProposalForm.tsx:35-39 | removes the entry only when more than two remain, so at least two always remain; every other field, the dialog, the reports and the calls stay |
| CreateProposalForm.Form.HandleOptionChange | app/src/components/proposals/CreateProposalForm.tsx:41-45 | replaces one entry and keeps the rest; every other field, the dialog, the reports and the calls stay |
| CreateProposalForm.Form.HandleSubmit | app/src/components/proposals/CreateProposalForm.tsx:47-131 | a failed check reports its message and changes nothing else (fields and dialog stay, no call); otherwise one call with the parsed seconds, then success (reset fields, the new signature) or error (fields and signature kept, and a report when reading the result throws) |
| CreateProposalForm.Form.Submit | app/src/components/proposals/CreateProposalForm.tsx:94-130 | the part after the checks passed records one call and ends in the settled state: success resets the fields and stores the signature; failure keeps the fields and the signature |
| CreateProposalForm.Form.Settle | app/src/components/proposals/CreateProposalForm.tsx:108-130 | settles the dialog by the result and ends submitting; the dialog stays open, and a failure keeps the fields and the signature |
| CreateProposalForm.Form.Open | app/src/components/proposals/CreateProposalForm.tsx:94-106 | opens the pending dialog and records the call, fields unchanged |
| CreateProposalForm.HookResult | app/src/hooks/useProgram.ts:10-42 | the hook resolves with a signature or null, never with a successful result, and null makes reading `.success` throw |
| ClientTypes.FloorSeconds | app/src/components/proposals/VoteForm.tsx:74 | `Math.floor(ms / 1000)` is the whole second containing the millisecond time |
| VoteForm.IsProposalActive | app/src/components/proposals/VoteForm.tsx:73-76 | the current whole second lies in the window, both ends included |
| VoteForm.Render | app/src/components/proposals/VoteForm.tsx:78-86 | the vote controls show if and only if the proposal is active |
| VoteForm.Form.constructor | app/src/components/proposals/VoteForm.tsx:20-27 | nothing selected, dialog closed, status pending |
| VoteForm.Form.Select | app/src/components/proposals/VoteForm.tsx:20 | the chosen option becomes the selection; the dialog, the reports, the calls and the count stay |
| VoteForm.Form.HandleVote | app/src/components/proposals/VoteForm.tsx:29-64 | without a selection a validation error, no call and the dialog unchanged; otherwise one call; on success the status is success, the signature is stored, `onVoteCast` runs once and the selection clears; on failure an error status, and the selection and the signature stay |
| VoteForm.Form.HandleDialogClose | app/src/components/proposals/VoteForm.tsx:66-71 | closes the dialog and changes no other dialog field; clears the selection only after a success |
| VoteForm.VoteAsWritten | app/src/components/proposals/VoteForm.tsx:18 | the hook has no `vote`, so an attempt with a selection reports a TypeError, ends in the error status with the error message, is never counted and keeps the selection and the signature; without a selection only the validation notice, with the dialog unchanged |
| ProposalCard.IsActive | app/src/components/proposals/ProposalCard.tsx:16 | started and not yet at the end, in exact milliseconds |
| ProposalCard.HasEnded | app/src/components/proposals/ProposalCard.tsx:17 | the end has been reached, which excludes active |
| ProposalCard.Label | app/src/components/proposals/ProposalCard.tsx:53 | Active if and only if active; Ended if and only if ended; Upcoming if and only if neither started nor ended |
| ProposalCard.ShowsVoteButton | app/src/components/proposals/ProposalCard.tsx:80 | the button shows only for an Active proposal with a connected wallet |
| ProposalCard.Card.constructor | app/src/components/proposals/ProposalCard.tsx:13 | nothing selected |
| ProposalCard.Card.ClickOption | app/src/components/proposals/ProposalCard.tsx:68 | a click selects the option only while the proposal is active |
| ProposalCard.Card.HandleVote | app/src/components/proposals/ProposalCard.tsx:19-28 | no call without a selection or a wallet; otherwise one call, and the selection clears only when the call resolves |
| ProposalCard.VoteAsWritten | app/src/components/proposals/ProposalCard.tsx:11-28 | the hook has no `vote`, so a vote attempt is made with a selection and a wallet but never clears the selection |
| ProposalList.Keep | app/src/components/proposals/ProposalList.tsx:42-50 | 'active' keeps start ≤ now ≤ end; 'ended' keeps now > end; 'all' keeps everything |
| ProposalList.Filtered | app/src/components/proposals/ProposalList.tsx:42-50 | exactly the kept proposals, in order: a subsequence of the input holding each kept proposal as often as the input does and no other |
| ProposalList.AllKeepsEverything | app/src/components/proposals/ProposalList.tsx:49 | 'all' shows the whole list |
| ProposalList.ActiveEndedDisjoint | app/src/components/proposals/ProposalList.tsx:44-48 | no proposal is both active and ended; one not yet started is neither (start ≤ end, which `create_proposal` enforces) |
| ProposalList.List.constructor | app/src/components/proposals/ProposalList.tsx:19-21 | empty list, filter 'all', not refreshing |
| ProposalList.List.FetchProposals | app/src/components/proposals/ProposalList.tsx:23-30 | a loaded list replaces the proposals; a failure is reported and the old list stays |
| ProposalList.List.HandleVoteCast | app/src/components/proposals/ProposalList.tsx:36-40 | reloads as `FetchProposals` does and ends not refreshing |
| ProposalList.FetchAsWritten | app/src/components/proposals/ProposalList.tsx:17 | the hook has no `getAllProposals`, so every fetch reports a TypeError and keeps the list |
| HistoricalDataView.InRange | app/src/components/results/HistoricalDataView.tsx:35-48 | 'all' keeps everything; any other range keeps a proposal that ended at most that range's width ago |
| HistoricalDataView.FilterByTimeRange | app/src/components/results/HistoricalDataView.tsx:29-50 | exactly the proposals in range, in order: a subsequence of the input holding each in-range proposal as often as the input does and no other |
| HistoricalDataView.AllKeepsEverything | app/src/components/results/HistoricalDataView.tsx:36 | 'all' keeps the whole list |
| HistoricalDataView.RangesNest | app/src/components/results/HistoricalDataView.tsx:31-48 | week ⊆ month ⊆ year ⊆ all, as subsequences |
| HistoricalDataView.NotEndedAlwaysKept | app/src/components/results/HistoricalDataView.tsx:38 | a proposal that has not ended is in every range |

## Left out

- Account sizes are not checked by the instruction functions: every record is taken to fit its account, as it would with the spaces AccountSizes calls fixed. As written the spaces are too small (see Findings), with these outcomes the instruction functions do not show:
  - `emergency_stop` by the authority always fails, because the record with a stop time needs 91 of 90 bytes (AccountSizes.EmergencyStopOverflows); so the stop never takes effect, and the lemmas about a stopped program describe states the program as written cannot reach;
  - `cast_vote` always fails once its vote account is created, because the 90-byte account cannot hold the 91-byte record (AccountSizes.VoteOverflows); VotingCorrected.CreateThenVoteRecorded presumes the vote space is fixed too;
  - `initialize_user_profile` fails for a username of more than 46 bytes (AccountSizes.UserProfileFitsIffShortName);
  - `create_proposal` fails when title, description and options take more than 2083 bytes, e.g. at the handler's limits (AccountSizes.NewProposalFits, AccountSizes.ProposalAtLimitsOverflows); finalizing adds eight more bytes.
- Account bumps, rent and `msg!` logging are not modelled. They do not change which instructions succeed.
- Address hashing and the bump search are not modelled. A program address is its seed list, so distinct seeds give distinct addresses, and the seeds are not concatenated into one byte string.
- Anchor's account-discriminator and owner checks are not modelled. An account of another kind at an address counts as in use but never loads as the wrong kind.
- `current_time - 60` at lib.rs:48 is computed on unbounded integers; its `i64` overflow at the minimum timestamp is not modelled.
- The minimum and maximum voting periods are stored but never enforced, and the model enforces nothing either.
- `maxRetries` is an integer; a fractional or NaN value from the options object is not modelled.
- The client's instruction builders (transactionService.ts:117-172, proposalService.ts:19-57) and the `useProgram` calls other than the missing `vote` and `getAllProposals` are not modelled. They only forward arguments to the RPC library.
- The `context` of `createError` is kept as the original value, not its `JSON.stringify` text. The stack trace is not modelled.
- Tally keys are plain strings. Keys that collide with object prototype properties (`__proto__`, `constructor`) are not modelled.
- Times and counts are unbounded integers. BN `toNumber` is modelled only as far as it throws for a magnitude of 2^53 or more, which makes `getProposal` return null, `getAllProposals` return [] and `getProposalResults` return null.
- `getVotes` (proposalService.ts:153-171) is not modelled. It projects the fetched votes the way `getAllProposals` projects proposals.
- Dates are parsed by a parameter `string -> Option<int>`, and a locale's day label by `int -> string`.
- The transaction id is a counter, not a random uuid.
- Console output, React rendering beyond which controls show, mock data in the views and the ErrorContext timers are not modelled.
- Concurrency and re-entrancy are not modelled: overlapping React handlers, or two transactions racing for one account. Each operation runs to completion before the next.
- Records handed out by the transaction service are values here. Aliasing between the returned record and the stored one is not modelled.
- memcmp filters are produced as values; how the RPC node matches them against the account layout is not modelled.
- `.message` is an optional string. A non-string message value is not modelled. A falsy caught value (`""`, `0`, `false`, `NaN`) is one value, `Falsy`: it has no message.
- ErrorService.Service.CreateError: assumes every registered handler returns. A handler that throws stops `forEach` (errorService.ts:42), so the later handlers are not called, and `createError` throws after the error has been logged.
- CreateProposalForm.Form.HandleOptionChange: requires an index within the option list; an out-of-range write, which would grow a sparse JavaScript array, is not modelled because the component only passes indexes of existing options.

## Findings

| source | as written | input that shows it | evidently intended | confidence | as-written member | corrected member |
|---|---|---|---|---|---|---|
| programs/voting-d-app/src/lib.rs:52-112 | `create_proposal` never sets `vote_counts`, so it stays empty and `vote_counts[option_index]` panics in `cast_vote` | any vote that passes the window, index and weight checks, e.g. option 0 of ["Yes","No"] with weight 1 | one zero count per option, so the vote is added to its option | not executed | VotingCorrected.EmptyCountsAbort | VotingCorrected.CreateProposalFixed |
| programs/voting-d-app/src/lib.rs:250 | `cast_vote` re-derives the proposal address from the current `total_proposals`, which has moved past the counter the proposal was created under | create a proposal (counter 0 → 1), then vote on it: seeds use 1, the address used 0, `ConstraintSeeds` | check the proposal as the account it is (or its creation counter) | not executed | VotingCorrected.CreateThenVoteRejected | VotingCorrected.CreateThenVoteRecorded |
| programs/voting-d-app/src/lib.rs:202 | the global-state `space` counts `emergency_stop_time: Option<i64>` as 8 bytes, omitting the tag byte | `emergency_stop` by the authority: the record with `Some(now)` needs 91 bytes, the account has 90, so the instruction fails | count 9 bytes for the option (91 in all) | not executed | AccountSizes.EmergencyStopOverflows | AccountSizes.GlobalStateAlwaysFitsFixed |
| programs/voting-d-app/src/lib.rs:259 | the vote `space` counts only one of the two one-byte fields (`bump`, `has_voted`) | any `cast_vote`: the new 90-byte account cannot hold the 91-byte record | 91 bytes | not executed | AccountSizes.VoteOverflows | AccountSizes.VoteFitsFixed |
| programs/voting-d-app/src/lib.rs:330 | the profile `space` reserves 50 bytes for the username but not its four-byte length | a 47-byte username makes the record 124 bytes for a 123-byte account | 4 + 50 bytes for the username (127 in all) | not executed | AccountSizes.UserProfileFitsIffShortName | AccountSizes.UserProfileFitsFixed |
| programs/voting-d-app/src/lib.rs:219 | the proposal `space` omits every length prefix, the option's tag byte and `vote_counts` | a 100-byte title, a 1000-byte description and ten 100-byte options: the record needs 2231 bytes, the account has 2174 | count the prefixes, the tag and ten counts (2319 in all) | not executed | AccountSizes.ProposalAtLimitsOverflows | AccountSizes.ProposalFitsFixed |
| programs/voting-d-app/src/lib.rs:289 | `finalize_proposal` re-derives the address from `created_at`, a timestamp, instead of the creation counter | a proposal created at time 1700000000 under counter 0 can never be finalized | derive with the creation counter, or take the account as given | not executed | VotingCorrected.CreateThenFinalizeRejected | VotingCorrected.CreateThenFinalizeAccepted |
