# Auction dApp: a Dafny model of the bidding core

This project models the core of a single-auction dApp on Stellar. It has two parts.

The Soroban contract (`contract/src/lib.rs`):
- `initialize`, `set_end_time` and `place_bid` over the contract's instance storage;
- the reads `is_initialized`, `is_live`, `get_auction_status` and `get_auction`.

The TypeScript front end that drives it:
- the transaction controller that polls a submitted transaction and keeps an audit log (`utils/txController.ts`);
- the bid orchestrator that initialises the auction when needed (`utils/bidOrchestrator.ts`);
- `placeBid`'s checks, its poll-result mapping and its error classification, plus `placeBidEnsuringInit`;
- the in-memory demo catalogue (`contract.ts`);
- the status and time-remaining helpers (`utils/auctionStatus.ts`, `utils/bidHelpers.ts`, `components/Countdown.tsx`);
- the validators and error formatter (`types/contract.ts`);
- environment loading (`env.ts`) and the explorer links (`config/stellar.ts`).

How state is modelled:
- Where the source changes state in place, the model is a class with a `modifies` frame:
  - `TxControl.TxController` holds the audit log;
  - `AuctionContract.AuctionContract` holds the storage and the published events;
  - `Env.EnvCache` holds the memoised environment;
  - `ContractClient.Catalogue` holds the demo arrays; `ContractClient.LoadCatalogue` builds it.
- Each method is proved against a specification function, and the lemmas sit on those functions.
- What the source asks of the network is a parameter:
  - the sequence of replies `getTransaction` gives;
  - the answers of the orchestrator's dependencies;
  - the outcome of the submission.
- The clock is a parameter (`now`).

The model also relates the parts to each other (module `Agreement`):
- The contract's status code, mapped by the front end, gives the status the front end computes itself.
- The countdown and the status helpers measure the same remaining time.
- The two network selections do **not** agree. `env.ts` turns `PUBNET` (in any case, with surrounding blanks) into PUBLIC. `config/stellar.ts` accepts only the exact string `PUBLIC`, so its explorer links stay on TESTNET (`Agreement.NetworkNamesDisagree`).

Units:
- Amounts in the orchestrator and the contract are integer stroops (1 XLM = 10,000,000 stroops).
- Amounts in the UI helpers are reals.
- Timeouts are integer milliseconds.
- A JavaScript number that may be NaN or infinite is `Common.JsNumber`.

## Model

| member | source | states |
|---|---|---|
| Text.FirstMatch | frontend/src/contract.ts:667-721 | The index of the first rule whose patterns occur in the text: it matches, no earlier rule does, and None exactly when no rule matches — the semantics of an `if`/`includes` chain |
| Text.Classify | frontend/src/utils/bidHelpers.ts:122-148 | The first matching rule's message, or the text itself when no rule matches |
| StellarConfig.CurrentNetwork | frontend/src/config/stellar.ts:26 | PUBLIC exactly when `VITE_STELLAR_NETWORK` is the exact string `PUBLIC` |
| StellarConfig.TxUrl | frontend/src/config/stellar.ts:29-41 | The explorer base of the network, `/tx/`, then the hash; the URL begins with the base and ends with the hash |
| StellarConfig.AccountUrl | frontend/src/config/stellar.ts:46-48 | The explorer base, `/account/`, then the address |
| StellarConfig.ContractUrl | frontend/src/config/stellar.ts:53-55 | The explorer base, `/contract/`, then the contract id |
| StellarConfig.GetNetworkConfig | frontend/src/config/stellar.ts:60-61 | The PUBLIC table entry exactly when the variable is `PUBLIC`, the TESTNET entry otherwise |
| StellarConfig.TxUrlInjective | frontend/src/config/stellar.ts:39-41 | A transaction link is never empty, and different hashes on one network give different links |
| StellarConfig.TxUrlSeparatesNetworks | frontend/src/config/stellar.ts:8-23 | The same hash links to different pages on TESTNET and PUBLIC |
| StellarConfig.LinkKindsDistinct | frontend/src/config/stellar.ts:29-55 | A transaction, an account and a contract link are never the same URL |
| Env.ParseInt | frontend/src/env.ts:31 | `parseInt(s, 10)` fails exactly when, after leading blanks and one sign, no digit follows |
| Env.ParseIntRoundTrip | frontend/src/env.ts:31 | Parsing the decimal form of a natural number gives the number back |
| Env.NetworkInput | frontend/src/env.ts:24 | `VITE_STELLAR_NETWORK` wins over `VITE_NETWORK`; `TESTNET` when neither is set |
| Env.NormaliseNetwork | frontend/src/env.ts:25-26 | PUBLIC exactly when the trimmed, upper-cased input is `PUBLIC` or `PUBNET` |
| Env.TimeoutSecs | frontend/src/env.ts:30-32 | Always within [30, 300]; the parsed value (raw default `120`) when it parses and is in range, 120 otherwise |
| Env.TimeoutSecsReadsDecimal | frontend/src/env.ts:30-32 | A decimal value within [30, 300] is taken as written |
| Env.TimeoutSecsDefault | frontend/src/env.ts:30 | An unset variable gives 120 seconds |
| Env.BuildEnv | frontend/src/env.ts:21-34 | Contract id trimmed, default `''`. RPC URL trimmed when set, else the testnet default. Network normalised. Horizon URL trimmed when set, else the chosen network's host. Timeout is the `TimeoutSecs` rule applied to the variable, so within [30, 300] |
| Env.EnvErrors | frontend/src/env.ts:43-50 | Each of the three messages is present exactly when its field is empty. No other message occurs. The messages are strictly in the order contract, RPC, Horizon, so none repeats. There are as many as there are empty fields |
| Env.CollectMissing | frontend/src/env.ts:44-49 | The loop that pushes messages yields exactly the specified list |
| Env.EnvCache.constructor | frontend/src/env.ts:17 | Nothing is cached yet |
| Env.EnvCache.GetEnv | frontend/src/env.ts:19-41 | The first call builds the environment from the variables and caches it; every later call returns the cached value unchanged |
| Env.EnvCache.ValidateEnv | frontend/src/env.ts:43-50 | Loads the environment through the cache and reports exactly the specified missing-field messages |
| Env.GetEnvTwice | frontend/src/env.ts:20-34 | Two calls with different variables return the same environment, the one built from the first |
| TxControl.BoundedTimeoutMs | frontend/src/utils/txController.ts:27-31 | At least 1 ms. An explicit timeout is kept, at least 1 ms. Otherwise the environment's seconds are clamped into [30 000, 300 000] ms, and an in-range value is taken as is |
| TxControl.BoundedPollIntervalMs | frontend/src/utils/txController.ts:35 | At least 1 ms; 2000 ms by default; a positive override is kept |
| TxControl.MaxAttempts | frontend/src/utils/txController.ts:41 | The ceiling of timeout over interval: at least 1, and the last attempt is the first whose cumulative interval reaches the timeout |
| TxControl.MaxAttemptsExamples | frontend/src/__tests__/txController.test.ts:24-31 | A 30 ms budget at 1 ms gives 30 attempts; the defaults give 60 |
| TxControl.FailedMessage | frontend/src/utils/txController.ts:53-56 | A failed entry carries the result XDR, or `FAILED` when there is none |
| TxControl.Run | frontend/src/utils/txController.ts:40-67 | The poll loop over the server's replies: a returned entry is for the polled hash, stamped `now`, and committed, failed or timed out; the number of queries is between 1 and the number of replies |
| TxControl.FirstSuccessCommits | frontend/src/utils/txController.ts:46-50 | If replies before k are pending and reply k is SUCCESS, the run commits after k+1 queries, with k pending events before it, and its entry links to the explorer |
| TxControl.FirstFailureFails | frontend/src/utils/txController.ts:52-60 | If replies before k are pending and reply k is FAILED, the run fails with that reply's XDR after k+1 queries |
| TxControl.AllPendingTimesOut | frontend/src/utils/txController.ts:62-66 | If every reply is pending, the run times out after querying them all, reports each as pending, and its entry links to the explorer |
| TxControl.RaisedPropagates | frontend/src/utils/txController.ts:42-44 | If reply k is an exception after pending replies, the poll throws it and logs nothing |
| TxControl.EventsNumberAttempts | frontend/src/utils/txController.ts:42-62 | One event per query that returned, numbered from 1 in order. Every event but the last is pending. The last carries the outcome's state, unless the run timed out |
| TxControl.TxController.constructor | frontend/src/utils/txController.ts:25-38 | The budget and interval are the clamped options; the log is empty |
| TxControl.TxController.Poll | frontend/src/utils/txController.ts:40-67 | The loop's outcome, events and query count equal the specification run over the first MaxAttempts replies; a returned entry is appended to the log, a thrown error leaves it unchanged; the log only ever holds terminal entries |
| TxControl.TxController.Rollback | frontend/src/utils/txController.ts:70-74 | Appends and returns exactly one rolled-back entry with the reason |
| TxControl.TxController.GetLogs | frontend/src/utils/txController.ts:76-78 | A copy of the log, every entry of which is terminal |
| TxControl.ControllerScenarios | frontend/src/__tests__/txController.test.ts:5-43 | The four tests: commit on success, fail with the XDR, time out after 30 attempts, one rolled-back entry |
| BidOrchestrator.SeedStartPrice | frontend/src/utils/bidOrchestrator.ts:16 | The seed is the bid less 0.01 XLM, never below zero and never above the bid |
| BidOrchestrator.InitFailureMessage | frontend/src/utils/bidOrchestrator.ts:19 | The init error when it is a non-empty string, `Initialization failed` otherwise |
| BidOrchestrator.OrchestrateBid | frontend/src/utils/bidOrchestrator.ts:8-28 | The initialisation check comes first. Initialisation is called, with the seeded price, exactly when not yet initialised. A failed initialisation stops with its message. A status other than 1 stops with `Auction not live`. On a live auction the last two calls are the status query and the bid with the original amount, and the bid's result is returned unchanged. Any other result is a failure with no hash |
| BidOrchestrator.OrchestratorScenarios | frontend/src/__tests__/bidOrchestrator.test.ts:5-39 | The three tests: init then bid, init failure, not live |
| AuctionContract.ErrorCode | contract/src/lib.rs:42-49 | The `#[repr(u32)]` codes 1 to 6, one per error |
| AuctionContract.IsInitialized | contract/src/lib.rs:88-93 | True exactly when the stored flag is `true`; an absent flag reads as false |
| AuctionContract.GetAuctionStatus | contract/src/lib.rs:107-120 | 0 when not initialised or no end time; 2 when the ledger time has reached the end time; 1 otherwise |
| AuctionContract.IsLive | contract/src/lib.rs:95-105 | Live exactly when the status code is 1 |
| AuctionContract.GetAuction | contract/src/lib.rs:200-243 | `AuctionNotInitialized` exactly when not initialised or a required key is missing. Otherwise the starting price and highest bid both read the stored highest bid, the reserve defaults to it, and the bidder defaults to none |
| AuctionContract.GetAuctionTotalWhenInitialized | contract/src/lib.rs:200-243 | On well-formed storage `get_auction` succeeds exactly when initialised and reports the stored reserve |
| AuctionContract.InitializedStorage | contract/src/lib.rs:179-185 | After `initialize` the storage is initialised and well formed, and `get_auction` reports the owner, the end time, and the starting price as reserve and highest bid, with no bidder |
| AuctionContract.FreshAuctionIsLive | contract/src/lib.rs:170-185 | An auction just initialised with a future end time is live |
| AuctionContract.PlacedBid | contract/src/lib.rs:193-195 | A bid overwrites the highest bid and bidder and leaves every other key alone |
| AuctionContract.PlaceBidAsWrittenLowersBid | contract/src/lib.rs:191-198 | Counterexample: on an auction that stands at 100 and ended at time 50, a bid of 1 at time 60 is accepted, lowers the highest bid and records the bidder |
| AuctionContract.ValidatedBid | contract/src/lib.rs:16-18 | The documented check: a bid is accepted exactly when the auction is live and the amount exceeds the highest bid. Errors are not-initialised, ended or too-low (codes 1 to 3) |
| AuctionContract.ApplyValidatedBids | contract/src/lib.rs:16-18 | Any sequence of validated bids never lowers the highest bid and never touches the owner, end time or flag |
| AuctionContract.ValidatedBidsNeverLower | contract/src/lib.rs:16-18 | Once a validated bid is accepted, the highest bid is strictly above where it started |
| AuctionContract.AuctionContract.constructor | contract/src/lib.rs:29-37 | Storage starts empty, with no events |
| AuctionContract.AuctionContract.Initialize | contract/src/lib.rs:160-189 | Already initialised, an end time not in the future, or a negative price each give their error and change nothing. Otherwise storage becomes the initialised storage and one creation event is published |
| AuctionContract.AuctionContract.SetEndTime | contract/src/lib.rs:122-158 | Each rejection gives its own error and changes nothing: not initialised, a caller that is not the owner, an end time not in the future, or a bid already placed (`Unauthorized`). Otherwise only the end time changes and one event is published |
| AuctionContract.AuctionContract.PlaceBid | contract/src/lib.rs:191-198 | As written: always succeeds, overwrites the highest bid and bidder, and publishes one bid event |
| AuctionContract.AuctionContract.PlaceBidValidated | contract/src/lib.rs:16-18 | Succeeds exactly when the validated bid does; on success it stores that bid and publishes one event, on failure it changes nothing |
| AuctionStatus.MapAuctionStatus | frontend/src/utils/auctionStatus.ts:152-156 | 1 is LIVE, 2 is ENDED, any other code NOT_INITIALIZED |
| AuctionStatus.GetAuctionStatus | frontend/src/utils/auctionStatus.ts:26-43 | NOT_INITIALIZED without initialisation or an end time; ENDED once now reaches the end; LIVE before it |
| AuctionStatus.GetStatusInfo | frontend/src/utils/auctionStatus.ts:48-93 | The info is for the given status; bidding is allowed exactly when LIVE; green, red and yellow for live, ended and not initialised |
| AuctionStatus.GetTimeRemaining | frontend/src/utils/auctionStatus.ts:99-101 | Never negative; zero exactly when the end time has passed; otherwise end minus now |
| AuctionStatus.SplitHms | frontend/src/utils/auctionStatus.ts:111-113 | Hours, minutes below 60 and seconds below 60 that add back up to the input |
| AuctionStatus.Field | frontend/src/utils/auctionStatus.ts:116-118 | `padStart(2, '0')`: all digits, at least two, exactly two below 100, reading back as the number |
| AuctionStatus.FormatTimeRemaining | frontend/src/utils/auctionStatus.ts:106-120 | `00:00:00` when nothing remains; always a clock `H:MM:SS` |
| AuctionStatus.FormatTimeRemainingRoundTrip | frontend/src/utils/auctionStatus.ts:106-120 | Reading the clock back gives the hours, minutes and seconds, which add up to the remaining seconds |
| AuctionStatus.ZeroClock | frontend/src/utils/auctionStatus.ts:107-109 | The zero clock reads back as zero hours, minutes and seconds |
| AuctionStatus.ClockFields | frontend/src/utils/auctionStatus.ts:116-118 | A clock assembled from digit fields reads back field by field |
| AuctionStatus.HumanShown | frontend/src/utils/auctionStatus.ts:134-144 | At most three non-zero parts in hours, minutes and seconds, largest unit first. A seconds part occurs only when there are no hours. None exactly when all fields are zero. The last unit is `HumanUnit` |
| AuctionStatus.HumanShownFields | frontend/src/utils/auctionStatus.ts:134-144 | An hours part exactly when there are hours, a minutes part exactly when there are minutes, and a seconds part exactly when there are seconds and no hours. Each part holds its own field of the split time |
| AuctionStatus.HumanShownValue | frontend/src/utils/auctionStatus.ts:134-144 | The parts add up to the hours and minutes, plus the seconds only when there are no hours |
| AuctionStatus.HumanParts | frontend/src/utils/auctionStatus.ts:134-144 | Part i is the text of the i-th `HumanShown` part. Each starts with a digit. There are none exactly when hours, minutes and seconds are all zero. The last part ends with `HumanUnit` |
| AuctionStatus.HumanUnit | frontend/src/utils/auctionStatus.ts:134-144 | The unit of the last part shown: `s` when there are no hours and some seconds, else `m` when there are minutes, else `h` |
| AuctionStatus.FormatTimeRemainingHuman | frontend/src/utils/auctionStatus.ts:125-147 | Never empty. `Ended` exactly when nothing remains. Otherwise the text starts with a digit and ends with the unit of its smallest part: `s` below an hour when seconds remain, else `m` when minutes remain, else `h` |
| AuctionStatus.FormatTimeRemainingHumanValue | frontend/src/utils/auctionStatus.ts:125-147 | For a positive time the text is the parts joined by spaces. They stand for the exact time below one hour, and for the time truncated to the minute from one hour on |
| Countdown.CalcTimeLeft | frontend/src/components/Countdown.tsx:16-23 | Hours below 24, minutes and seconds below 60. The four fields add up to max(0, end − now). All four are zero exactly when the end time has been reached |
| Countdown.SplitDay | frontend/src/components/Countdown.tsx:18-21 | The day, hour, minute and second fields recombine into the difference |
| BidHelpers.ValidateBidAmount | frontend/src/utils/bidHelpers.ts:10-62 | Checks in order: not a number, not positive, below the minimum, not above the highest bid, then the balance checks. Valid exactly when the amount passes the amount checks, the balance is not -Infinity and, with a finite balance, the amount is at most the balance less the 1 XLM reserve. A -Infinity balance or one below the amount is reported as insufficient; NaN and +Infinity pass both balance checks |
| BidHelpers.ShortenAddress | frontend/src/utils/bidHelpers.ts:112-117 | Unchanged when empty or not longer than start+end. Otherwise the first characters, `...`, then the last ones. With an end of 0 the whole address follows |
| BidHelpers.ShortenStellarAddress | frontend/src/utils/bidHelpers.ts:112-117 | A 56-character address shortens to 11 characters: four, `...`, four |
| BidHelpers.ParseSorobanError | frontend/src/utils/bidHelpers.ts:122-148 | Case-sensitive and first-match over the seven patterns; unmatched text is returned unchanged; the result is the text or one of the fixed messages |
| BidHelpers.ExpertRootIsExplorerBase | frontend/src/utils/bidHelpers.ts:91-107 | The stellar.expert root plus the network name is the explorer base of the configuration |
| BidHelpers.StellarExpertTxUrl | frontend/src/utils/bidHelpers.ts:91-93 | The same link as the configuration's transaction URL, on testnet by default |
| BidHelpers.StellarExpertAccountUrl | frontend/src/utils/bidHelpers.ts:98-100 | The same link as the configuration's account URL, on testnet by default |
| BidHelpers.StellarExpertContractUrl | frontend/src/utils/bidHelpers.ts:105-107 | The same link as the configuration's contract URL, on testnet by default |
| BidHelpers.CalculateSuggestedBid | frontend/src/utils/bidHelpers.ts:153-157 | At least the highest bid plus the increment (1 by default) and at least 110 % of it, and equal to one of the two |
| BidHelpers.GetTimeRemaining | frontend/src/utils/bidHelpers.ts:169-172 | Never negative, and the same remaining time as the status helpers compute |
| BidHelpers.IsAuctionActive | frontend/src/utils/bidHelpers.ts:162-164 | Active exactly when some time remains |
| BidHelpers.ShownParts | frontend/src/utils/bidHelpers.ts:180-194 | One to three parts, the first non-zero, each holding its own field of `calcTimeLeft`'s split. A days part exactly from 86400 s, an hours part from 3600 s, a minutes part from 60 s, and a seconds part exactly below 86400 s. With days, the last part is minutes; otherwise it is seconds |
| BidHelpers.PartsOf | frontend/src/utils/bidHelpers.ts:180-194 | For a split time that is not all zero: one to three parts, largest unit first, each holding its own field. With days the units are days, hours and minutes. Without days they run from the largest non-zero field down to seconds. The first part is non-zero |
| BidHelpers.PartsOfValue | frontend/src/utils/bidHelpers.ts:180-194 | The parts add up to the split time, less its seconds when there are days |
| BidHelpers.ShownPartsValue | frontend/src/utils/bidHelpers.ts:180-194 | The parts shown add back up to the seconds; with days, only the seconds below a minute are dropped |
| AuctionStatus.ShowPart | frontend/src/utils/bidHelpers.ts:186-194 | A part's text is decimal digits, with no leading zero, that read back as its value, followed by its unit letter |
| AuctionStatus.ShowAll | frontend/src/utils/auctionStatus.ts:134-144 | The text of each part, in order |
| BidHelpers.FormatTimeRemaining | frontend/src/utils/bidHelpers.ts:177-195 | `Ended` exactly when nothing remains. Otherwise the text of the `ShownParts` parts joined by spaces, which starts with a digit and ends in `m` with days, in `s` without |
| ContractTypes.IsValidStellarAddress | frontend/src/types/contract.ts:173-175 | 56 characters, `G` first, then 55 from A–Z and 0–9 |
| ContractTypes.IsValidContractId | frontend/src/types/contract.ts:180-182 | 56 characters, `C` first, then 55 from A–Z and 0–9 |
| ContractTypes.AddressAndContractIdDisjoint | frontend/src/types/contract.ts:173-182 | No string is both an account address and a contract id; neither holds lower case or blanks |
| ContractTypes.ValidatePlaceBidParams | frontend/src/types/contract.ts:204-220 | Valid exactly when the address is valid and 0 < amount ≤ 10^19 stroops; the address is checked first, each failure with its message |
| ContractTypes.MaxStroopsFitsI128 | frontend/src/types/contract.ts:214 | The bound is 10^19 stroops and fits the contract's `i128` |
| ContractTypes.XlmToStroops | frontend/src/types/contract.ts:187-192 | Rejects negative and non-finite amounts; otherwise the stroops rounded down, never negative |
| ContractTypes.XlmToStroopsExact | frontend/src/types/contract.ts:187-192 | A whole number of stroops converts back exactly |
| ContractTypes.CodeSentence | frontend/src/types/contract.ts:231-243 | A sentence exactly for the codes 1 to 6 |
| ContractTypes.FormatContractError | frontend/src/types/contract.ts:225-254 | Strings unchanged. The contract-error shape is tested before `Error` instances: a listed code gives its sentence, any other code the message. An `Error` gives its message. Anything else gives `Unknown error occurred` |
| ContractTypes.ErrorTableMismatch | frontend/src/types/contract.ts:142-149 | As written, the client's table shows codes 2 and 3 correctly. Code 1 (not initialised) shows as "not found", 4 (unauthorised) as a balance problem, 5 (already initialised) as an authorisation problem, and 6 (bad end time) as bad parameters |
| ContractTypes.AuctionErrorSentence | contract/src/lib.rs:42-49 | One sentence per contract error, agreeing with the client's table on codes 2 and 3 |
| ContractTypes.AuctionErrorSentencesDistinct | contract/src/lib.rs:42-49 | Different contract errors get different sentences |
| ContractTypes.FormatAuctionContractError | frontend/src/types/contract.ts:225-254 | Corrected formatter: each contract code gives the sentence of the error the contract means by it; every other input is formatted as before |
| ContractClient.Preamble | frontend/src/contract.ts:541-571 | No early failure exactly when the contract id is set, the bidder starts with `G`, the amount is positive and a signer is given. Otherwise the first failing check's message, with no success and no hash |
| ContractClient.ErrorText | frontend/src/contract.ts:664 | The error's message, or `Unknown error occurred` when it is empty |
| ContractClient.ClassifyBidError | frontend/src/contract.ts:662-728 | Always a failure with no hash and a non-empty error. The first of the eight lower-cased pattern rows to match gives its message; with no match, the original message, not lower-cased |
| ContractClient.ClassificationIgnoresCase | frontend/src/contract.ts:664-665 | Messages that lower-case alike are classified alike |
| ContractClient.EarlierRowsWin | frontend/src/contract.ts:667-721 | When row k matches, the chosen row is k or an earlier one, and exactly k when no earlier row matches |
| ContractClient.ContractCodesSelectTheirRow | frontend/src/contract.ts:667-687 | A message carrying `Error(Contract, #c)` for c in 1..3 is classified by a row before c; `#1` always gives the not-initialised message |
| ContractClient.AfterPoll | frontend/src/contract.ts:651-660 | Committed gives success with the hash. Failed raises the ledger-failure error. Otherwise the hash is kept with `Pending: ` and its explorer link |
| ContractClient.PollBudget | frontend/src/contract.ts:649 | The number of status queries `placeBid`'s controller may make: the timeout in seconds halved and rounded up, 15 to 150 for a configured timeout |
| ContractClient.PlaceBid | frontend/src/contract.ts:541-728 | An early failure is returned as is. Success only after the preamble passes and the submission is polled to commit. A hash only from the submission. An error thrown before polling is classified |
| ContractClient.BidReadsOnlyTheBudget | frontend/src/contract.ts:649-650 | Replies beyond the poll budget do not change the result |
| ContractClient.BidCommitsOnSuccess | frontend/src/contract.ts:649-654 | Pending replies followed by SUCCESS within the poll budget give success with the submitted hash |
| ContractClient.BidPendingOnTimeout | frontend/src/contract.ts:649-660 | Pending replies for the whole poll budget give a pending result with the hash and its explorer link, whatever comes after |
| ContractClient.BidFailsOnLedgerFailure | frontend/src/contract.ts:649-658 | A FAILED reply within the poll budget gives the classified ledger-failure message and no hash |
| ContractClient.BidClassifiesPollError | frontend/src/contract.ts:649-665 | An error raised by a status query within the poll budget is classified like any other thrown error |
| ContractClient.PlaceBidEnsuringInit | frontend/src/contract.ts:734-766 | Bids exactly when already initialised or initialisation succeeded and the status is 1, returning the bid's result. Throws the init message on init failure and `Auction not live` otherwise |
| ContractClient.EnsuringInitMatchesOrchestrator | frontend/src/contract.ts:745-760 | Makes the same dependency calls as the orchestrator and returns what it returns; where it throws, the orchestrator fails with that message |
| ContractClient.FindAuction | frontend/src/contract.ts:419-421 | The first auction with the id, or none exactly when no auction has it |
| ContractClient.FoundAuctionHasId | frontend/src/contract.ts:419-421 | A found auction has the requested id and is in the catalogue |
| ContractClient.BidsOf | frontend/src/contract.ts:423-425 | The auction's bid list, or empty when it has none |
| ContractClient.LatestBidBy | frontend/src/contract.ts:431 | None exactly when the address has not bid; otherwise a bid of the list placed by the address, equal to any bid by it that no later bid by it follows |
| ContractClient.LastIndexBy | frontend/src/contract.ts:431 | The position of a bid by the address with none after it, or none exactly when the address never bid |
| ContractClient.UserBids | frontend/src/contract.ts:427-435 | At most one entry per auction |
| ContractClient.BidPositions | frontend/src/contract.ts:427-435 | The positions of the auctions the address bid on, in bounds and strictly increasing |
| ContractClient.BidPositionsComplete | frontend/src/contract.ts:427-435 | An auction is listed exactly when the address has a bid on it |
| ContractClient.UserBidsInCatalogueOrder | frontend/src/contract.ts:427-435 | Entry k is the auction at the k-th listed position, in catalogue order, with the address's latest bid on it |
| ContractClient.UserBidsBelongToAddress | frontend/src/contract.ts:427-435 | Every entry is a catalogue auction with a bid by the address from that auction's history |
| ContractClient.DemoBids | frontend/src/contract.ts:73-84 | The seed bids are keyed by auctions 1 to 3, and every bid names the auction it is filed under |
| ContractClient.Catalogue.constructor | frontend/src/contract.ts:86-87 | A new catalogue holds exactly the auctions and bid lists it is given |
| ContractClient.LoadCatalogue | frontend/src/contract.ts:86-87 | A fresh catalogue holding the demo auctions and bids |
| ContractClient.Catalogue.GetAllAuctions | frontend/src/contract.ts:415-417 | All auctions, in catalogue order |
| ContractClient.Catalogue.GetAuction | frontend/src/contract.ts:419-421 | None exactly when no auction has the id; otherwise the first such auction, which has the id and is in the catalogue |
| ContractClient.Catalogue.GetBidHistory | frontend/src/contract.ts:423-425 | The auction's bid list, or empty |
| ContractClient.Catalogue.GetUserBids | frontend/src/contract.ts:427-435 | The loop yields exactly the specified list: one entry per auction the address bid on, in catalogue order, with its latest bid |
| Agreement.StatusViewsAgree | contract/src/lib.rs:107-120 | Mapping the contract's status code gives the status the front end computes from the flag and the end time; bidding is allowed exactly when the contract is live |
| Agreement.LiveCodeIsContractLive | frontend/src/utils/bidOrchestrator.ts:22-25 | The orchestrator's expected code 1 is exactly the contract's live status, and maps to LIVE |
| Agreement.NetworkNamesDisagree | frontend/src/config/stellar.ts:26 | `PUBNET` selects PUBLIC in the environment but TESTNET in the explorer configuration |
| Agreement.ValidAddressPassesBidderCheck | frontend/src/contract.ts:549-555 | A valid Stellar address passes `placeBid`'s bidder check |
| Agreement.CountdownMeasuresTimeRemaining | frontend/src/components/Countdown.tsx:17 | The countdown's fields add up to the status helpers' remaining time |
| Agreement.CountdownExpiresWithAuction | frontend/src/components/Countdown.tsx:16-23 | The countdown is all zeros exactly when the bid helpers call the auction inactive, and exactly when the status is ENDED |

## Left out

- Network I/O: every RPC and Horizon call (`simulateTransaction`, `sendTransaction`, `getTransaction`, `getAccount`, balance fetches) and the ScVal conversions.
  - The poll loop reads the server's replies from a sequence.
  - `placeBid`'s transaction building and submission is the `Submission` parameter: an error thrown before polling, or a hash and the replies.
  - The orchestrator's dependencies are the `DepAnswers` parameter.
- Wallet signing (`wallet.ts`, Freighter, Albedo): a signer is only present or absent.
- The 20-attempt polling loops in `initializeAuction`, `setAuctionEndTime` and `createAuction`, the fallbacks of `getContractIsInitialized` and `getContractAuctionStatus`, and `startBidEventPolling`/`stopBidEventPolling`: network I/O and timers.
- The sleeps in `TxController.poll`, the two-second pause in `placeBidEnsuringInit`, and `debounce`: time is the parameter `now`, not a delay.
- `require_auth` in the contract is taken to succeed. Ledger time is a parameter. Events are a list the contract appends to.
- React pages and components other than `calcTimeLeft`, the `useAuctionState` hook, the zustand stores, the UI primitives, `vite.config.ts` and `verify-bid-fix.js`: display code, library wrappers and a file-system script.
- Floating point:
  - Amounts in the UI helpers are exact reals.
  - Amounts in the orchestrator are integer stroops, so the seed price `max(0, amount − 0.01)` is exact.
  - Timeouts are integer milliseconds.
  - `formatXLM`, `stroopsToXLM`, `parseFloat`, `toFixed` and `toLocaleString` are not modelled.
- `validateBidAmount`'s messages are built with `toLocaleString`, so the model reports each kind of failure as a `BidError` value with its numbers, not as text.
- `isContractError` as a runtime type guard: the error argument is a datatype that records a numeric `code`, a string `message` and whether it is an `Error`.
- The unguarded `xlmToStroops` copy in `utils/bidHelpers.ts`: only the guarded one in `types/contract.ts` is modelled.
- `getStatusInfo`'s `default` branch: the status type has no other value, so it cannot be reached.
- `formatTimeRemainingHuman`'s `'0s'` fallback: it cannot be reached for a positive whole number of seconds.
- The object copies `{ ...a }` in the catalogue reads: values are immutable here, so aliasing between the returned auctions and the catalogue is not captured.
- `ContractClient.DemoAuctions`: the three seed auctions are spelled out with the clock as a parameter, but no property of their contents is stated.
- `TxControl.BoundedTimeoutMs`: an explicit timeout is given in whole milliseconds, not fractional seconds, so `max(0.001, timeoutSecs)` is stated as at least 1 ms.
- `BidHelpers.CalculateSuggestedBid`: the 1.1 factor is an exact real, not a double, so rounding in the 110 % branch is not captured.
- `ContractTypes.XlmToStroops`: returns None where the source throws `Invalid XLM amount`, and an exact real stands for the double.
- `ContractClient.ContractCodesSelectTheirRow`: for codes 2 and 3 it states only that an earlier-or-equal row wins, because an earlier pattern (such as `not initialized`) may also occur in the message.
- `ContractClient.PlaceBid`: `amount` is a finite real, so a NaN amount, which passes `amount <= 0` in the source, is not modelled.
- `Env.NormaliseNetwork`, `Text.ToUpper` and `Text.ToLower`: case mapping covers ASCII letters only. JavaScript's `toUpperCase` also maps other letters, so `publıc` (dotless i) selects PUBLIC in the source and TESTNET here.
- `BidHelpers.ShortenAddress`: lengths and slices count characters, while JavaScript counts UTF-16 code units, so addresses outside the Basic Multilingual Plane are cut differently.
- `BidOrchestrator.OrchestrateBid` and `ContractClient.PlaceBidEnsuringInit`: a dependency that throws or rejects is not modelled. `DepAnswers` answers every call, so the model does not capture the aborts in which `getContractAuctionStatus` throws `Failed to get auction status: …`, `getAccount` fails, or a `BidDeps` promise rejects. In the source each of these propagates out without placing a bid.
- Logging: the `console.info` and `console.log` calls of `getEnv` and the console calls of `placeBid` and `placeBidEnsuringInit` have no effect on results and are not modelled.
- `AuctionStatus.FormatTimeRemaining`, `AuctionStatus.FormatTimeRemainingHuman` and `BidHelpers.FormatTimeRemaining`: seconds are whole numbers, while the source takes any JavaScript number, so a fractional input such as 90.5 (shown as `00:01:30.5`) is not modelled.
- `TxControl.TxController.constructor`: takes the environment that `getEnv()` returns; the cache filled by that first call is modelled by `Env.EnvCache`, not by the constructor.

## Findings

| source | as written | input that shows it | evidently intended | confidence | as-written member | corrected member |
|---|---|---|---|---|---|---|
| contract/src/lib.rs:191-198 | `place_bid` stores any amount as the highest bid without checking the auction's state or the current bid, although the crate documentation (line 18) promises bid validation | initialise at price 100 with end time 50, then `place_bid(b, 1)` at ledger time 60, after the end: accepted, the highest bid drops to 1 | reject a bid unless the auction is live and the amount exceeds the highest bid (`AuctionNotInitialized`, `AuctionEnded`, `BidTooLow`) | high, not executed | AuctionContract.PlaceBidAsWrittenLowersBid | AuctionContract.ValidatedBid |
| frontend/src/types/contract.ts:142-149 | the client's error-code table does not match the contract's `AuctionError` codes (contract/src/lib.rs:42-49), so `formatContractError` mislabels four of the six | contract error code 4 (`Unauthorized`) is shown as "Insufficient XLM balance"; code 1 (`AuctionNotInitialized`) as "Auction not found" | key the table by the contract's own codes | high, not executed | ContractTypes.ErrorTableMismatch | ContractTypes.FormatAuctionContractError |
