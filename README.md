# Raydium new-pool watcher, modelled in Dafny

This project models the two working parts of a watcher that spots new
Raydium liquidity pools on Solana.

* **The subscription watcher** (`TokenMonitor`, `alternate_main3.rs`). A log
  subscription pushes notifications that name transaction signatures. For
  each one the watcher fetches the transaction. A failed transaction, or one
  without metadata, is not an event. Otherwise it takes the creator from the
  first account key. From the post-execution token balances owned by the
  LP authority it selects the quote side (the wrapped-SOL mint) and the base
  side (any other mint). The resulting record is appended to a data file.
  A notification that fails is appended to an error log, and the loop goes on.
* **The diff-polling detector** (`RaydiumPoolListener`, `alternate_main.rs`).
  It takes a snapshot of the pool accounts at start. On every tick it takes a
  new snapshot and hands each address the previous snapshot did not contain
  to the pool handler. Then the new snapshot replaces the old one.

Modules, one per concern:

| file | module | models |
|---|---|---|
| `wrappers.dfy` | `Wrappers` | `Option`, `Result`, `Outcome` (Rust's `Result<(), E>`) |
| `sequences.dfy` | `Sequences` | a sequence fact shared by the two loops |
| `errors.dfy` | `Errors` | the errors raised and their messages |
| `json.dfy` | `Json` | the part of serde_json's `Value` that the decoder reads |
| `token_balances.dfy` | `TokenBalances` | `extract_token_info` |
| `transactions.dfy` | `PoolTransactions` | `parse_transaction` |
| `token_monitor.dfy` | `TokenMonitoring` | `store_data`, `log_error`, `handle_log_notification`, `monitor_new_tokens` |
| `pool_listener.dfy` | `PoolListener` | `start_listening`, `get_existing_pools`, `process_new_pool` |

Balance records are JSON values. An absent field and a field of the wrong
type both read as the default: `""`, `0` or `0.0`. This matches
`as_str().unwrap_or_default()` and the similar calls.

The node, the clock and the file system are parameters. A `Notification`
carries the pushed payload. It also carries what the environment answers
while that payload is handled:

* the transaction fetch;
* the clock readings;
* whether opening the data file, writing the record or writing the newline fails;
* whether writing the error log fails.

The loop specification `Monitor` runs over `Turn`s. A turn is what handling
one notification appends to the data file and returns, together with that
notification's error-log clock reading and error-log behaviour.

A `TickInput` carries the snapshot answer and the account fetches of one
polling tick. Base58 signature parsing is a foreign function. It is held as
the `parseSignature` field of `TokenMonitor`.

The stored record `TokenData` has the fields `creator`, `baseInfo` and
`quoteInfo`. `parse_transaction` builds them, although the struct
declaration at `alternate_main3.rs:38-45` comments them out.

The model follows the code, including these behaviours a reader might not expect:

* No signature deduplication happens before a record is stored.
  `RepeatedEventStoredTwice` shows that an event delivered twice is stored twice.
* A failing snapshot query or pool handler ends `start_listening`. The poller
  does not retry.
* A failure to write the error log ends `monitor_new_tokens`.
* New pools are reported in snapshot order, not in set order.
* A record and its newline are two separate writes. The second write can fail
  on its own and leave a record without a newline.

## Model

| member | source | states |
|---|---|---|
| `TokenBalances.Fits` | raydiumpoolsubscription/src/alternate_main3.rs:117-126 | defines the `find` predicate: the owner ("" when absent) is LP_OWNER and the mint ("" when absent) is WSOL_MINT for the quote side and anything else for the base side |
| `TokenBalances.ToTokenInfo` | raydiumpoolsubscription/src/alternate_main3.rs:129-137 | defines the token read from a record: its mint, its decimals truncated to a byte, and its amount, each defaulting when absent |
| `TokenBalances.FindBalance` | raydiumpoolsubscription/src/alternate_main3.rs:115-127 | the result is the position of the first record that is owned by LP_OWNER and has the side's mint condition; it is absent exactly when no record fits |
| `TokenBalances.ExtractTokenInfo` | raydiumpoolsubscription/src/alternate_main3.rs:114-138 | fails with "Token info not found" exactly when no record fits; otherwise returns the token read from the first fitting record; the quote address is WSOL_MINT and the base address is not |
| `TokenBalances.FirstFitUnique` | raydiumpoolsubscription/src/alternate_main3.rs:115-127 | at most one position is the first fitting record |
| `TokenBalances.ExtractReadsFirstFit` | raydiumpoolsubscription/src/alternate_main3.rs:115-137 | whenever some record is the first fit, extraction succeeds with exactly that record's token |
| `TokenBalances.BaseAndQuoteDistinct` | raydiumpoolsubscription/src/alternate_main3.rs:120-126 | when both sides are found, their addresses differ and they come from different records |
| `TokenBalances.AbsentOwnerNeverFits` | raydiumpoolsubscription/src/alternate_main3.rs:118-120 | a record whose owner is absent or not a string reads as "" and is never selected |
| `TokenBalances.AbsentAmountsDefaultToZero` | raydiumpoolsubscription/src/alternate_main3.rs:131-136 | absent decimals and uiAmount give 0 and 0.0 instead of an error |
| `TokenBalances.DecimalsTruncatedToByte` | raydiumpoolsubscription/src/alternate_main3.rs:131-133 | the decimals are the raw unsigned value modulo 256, and the raw value itself when it fits a byte |
| `PoolTransactions.NotAnEvent` | raydiumpoolsubscription/src/alternate_main3.rs:75-82 | defines when a fetched transaction is not an event: it has no metadata, or its metadata records an on-chain error |
| `PoolTransactions.ParseTransaction` | raydiumpoolsubscription/src/alternate_main3.rs:66-112 | a fetch error propagates; "no event" exactly when metadata is missing or the transaction failed; no account keys gives "No signer found"; a missing side gives "Token info not found"; a record carries the signature, the first account key as creator, the clock reading, and the base and quote tokens with distinct addresses |
| `PoolTransactions.BalanceRecordReads` | raydiumpoolsubscription/src/alternate_main3.rs:118-136 | a balance record shaped as the node returns it reads back its owner, mint, decimals modulo 256 and amount |
| `PoolTransactions.PairingExample` | raydiumpoolsubscription/src/alternate_main3.rs:102-111 | a quote record (9 decimals, 5.0) and a base record (6 decimals, 1000.0) decode to a record with exactly those tokens on the right sides |
| `PoolTransactions.QuoteOnlyRejected` | raydiumpoolsubscription/src/alternate_main3.rs:102-103 | a transaction holding only the quote-side record fails with "Token info not found" |
| `TokenMonitoring.Render` | raydiumpoolsubscription/src/alternate_main3.rs:154-158 | defines the text written for an error entry: "Error occurred: ", the error's message, a newline, "Timestamp: ", the timestamp and a newline |
| `TokenMonitoring.RenderShowsMessageAndTimestamp` | raydiumpoolsubscription/src/alternate_main3.rs:154-158 | an entry's text starts with "Error occurred: " and the error's message, and ends with the timestamp line and a newline; its length is fixed by the message and the timestamp |
| `TokenMonitoring.StoreWrites` | raydiumpoolsubscription/src/alternate_main3.rs:140-151 | the data file gains the record and a newline when every write succeeds, only the record when the newline write fails, and nothing when the open or the record write fails |
| `TokenMonitoring.StoreResult` | raydiumpoolsubscription/src/alternate_main3.rs:140-151 | storing succeeds exactly when every write succeeds; otherwise it fails with the I/O reason |
| `TokenMonitoring.Decide` | raydiumpoolsubscription/src/alternate_main3.rs:195-209 | a notification without a string signature fails with "No signature in logs"; an unparsable one fails with the parser's error; a parsed one gives exactly the decoding of its transaction, so the fetch error, "No signer found" and "Token info not found" become the handler's error; a record carries the parsed signature |
| `TokenMonitoring.Appended` | raydiumpoolsubscription/src/alternate_main3.rs:207-209 | handling appends at most two chunks; something is appended only for a decoded event, starting with its record; for a decoded event it is exactly what storing leaves: the record and a newline, only the record when the newline write fails, nothing when the open or the record write fails |
| `TokenMonitoring.HandleOutcome` | raydiumpoolsubscription/src/alternate_main3.rs:195-212 | handling fails with the decoding error, passes on "no event", and otherwise returns the result of storing |
| `TokenMonitoring.Monitor` | raydiumpoolsubscription/src/alternate_main3.rs:184-190 | defines the `while let` loop over the turns: each turn appends its chunks; a failed turn adds an error entry, and if that write fails the loop ends with its error |
| `TokenMonitoring.MonitorRun` | raydiumpoolsubscription/src/alternate_main3.rs:169-193 | defines `monitor_new_tokens`: a failed setup ends it with nothing written; otherwise `Monitor` runs over the turns of the delivered notifications |
| `TokenMonitoring.MonitorAppendOnly` | raydiumpoolsubscription/src/alternate_main3.rs:140-167 | during a run, neither log loses or changes an earlier entry |
| `TokenMonitoring.MonitorData` | raydiumpoolsubscription/src/alternate_main3.rs:185-209 | the data file gains exactly what handling the consumed notifications appends, in delivery order |
| `TokenMonitoring.MonitorKeepsGoing` | raydiumpoolsubscription/src/alternate_main3.rs:185-190 | when every failed notification's error-log write succeeds (passing ones never write it), every notification is taken, the run ends normally, and each failed notification adds exactly one error entry, in order |
| `TokenMonitoring.MonitorStopsOnlyOnErrorLogFailure` | raydiumpoolsubscription/src/alternate_main3.rs:185-190 | a run ends with an error only when a notification failed and its error-log write failed, with that write's error; every earlier turn passed or was recorded, and the error log holds exactly one entry per earlier failure, in order |
| `TokenMonitoring.AllAppendedFramesAccepted` | raydiumpoolsubscription/src/alternate_main3.rs:140-151 | when every data-file write succeeds, the appended chunks are the decoded events in order, each followed by a newline |
| `TokenMonitoring.StoresExactlyAccepted` | raydiumpoolsubscription/src/alternate_main3.rs:185-209 | with no I/O failure, the data file gains one record and one newline per decoded event, in delivery order, and nothing else |
| `TokenMonitoring.RepeatedEventStoredTwice` | raydiumpoolsubscription/src/alternate_main3.rs:207-209 | without deduplication, an event delivered twice is stored twice |
| `TokenMonitoring.QuoteOnlyLogsOneError` | raydiumpoolsubscription/src/alternate_main3.rs:185-190 | a quote-only transaction stores nothing, adds one "Token info not found" entry, and the loop goes on |
| `TokenMonitoring.TokenMonitor.constructor` | raydiumpoolsubscription/src/alternate_main3.rs:54-64 | the monitor starts with the given signature parser and the files' existing contents |
| `TokenMonitoring.TokenMonitor.StoreData` | raydiumpoolsubscription/src/alternate_main3.rs:140-151 | the data file becomes its old contents plus what the writes leave; the error log is unchanged |
| `TokenMonitoring.TokenMonitor.LogError` | raydiumpoolsubscription/src/alternate_main3.rs:153-167 | the error log gains exactly one entry with the error and timestamp, or is unchanged when the write fails, which is returned as an error |
| `TokenMonitoring.TokenMonitor.HandleLogNotification` | raydiumpoolsubscription/src/alternate_main3.rs:195-212 | the data file gains exactly what `Appended` says, the error log is unchanged, and the result is `HandleOutcome` |
| `TokenMonitoring.TokenMonitor.HandleAndRecord` | raydiumpoolsubscription/src/alternate_main3.rs:185-190 | one turn of the loop: the data file gains what handling appends; a passing notification leaves the error log alone; a failing one adds exactly one error entry and the loop goes on, unless that write fails, whose error is then returned |
| `TokenMonitoring.TokenMonitor.HandleNext` | raydiumpoolsubscription/src/alternate_main3.rs:184-190 | not a second loop body: `HandleAndRecord` on the `i`-th delivered notification, its contract restated over the `i`-th turn of the stream so that the loop's proof does not see the decoder |
| `TokenMonitoring.TokenMonitor.ReceiveAll` | raydiumpoolsubscription/src/alternate_main3.rs:184-189 | the `while let` loop leaves both logs, the result and the number of notifications taken exactly as the loop specification `Monitor` says for the turns of the delivered notifications |
| `TokenMonitoring.TokenMonitor.MonitorNewTokens` | raydiumpoolsubscription/src/alternate_main3.rs:170-193 | a failed setup changes nothing and returns its error; otherwise both logs, the result and the notifications taken are those of `MonitorRun`: the loop specification `Monitor` run over the turns of the delivered notifications |
| `PoolListener.GetExistingPools` | raydiumpoolsubscription/src/alternate_main.rs:59-78 | a query error propagates; otherwise the result is the returned accounts' addresses, in the order returned, with the data discarded |
| `PoolListener.ProcessNewPool` | raydiumpoolsubscription/src/alternate_main.rs:80-94 | handling a new pool fails exactly when fetching its account fails, with that error |
| `PoolListener.NewPools` | raydiumpoolsubscription/src/alternate_main.rs:43-48 | defines the addresses of the current snapshot that the known snapshot does not contain, in snapshot order, once per occurrence |
| `PoolListener.ProcessAll` | raydiumpoolsubscription/src/alternate_main.rs:43-49 | defines the `for` loop of one tick: each pending address is handed to the handler in order, and the first failure ends the tick with its error |
| `PoolListener.NewPoolsMembership` | raydiumpoolsubscription/src/alternate_main.rs:43-48 | an address is reported exactly when it is in the current snapshot and not in the known one |
| `PoolListener.NewPoolsOccurrences` | raydiumpoolsubscription/src/alternate_main.rs:43-52 | an unknown address is reported once per occurrence in the snapshot, and a known one never |
| `PoolListener.NewPoolsAppend` | raydiumpoolsubscription/src/alternate_main.rs:43-48 | the report of a snapshot split in two is the two reports joined: snapshot order is kept |
| `PoolListener.ProcessAllStopsAtFirstFailure` | raydiumpoolsubscription/src/alternate_main.rs:43-49 | a tick passes exactly when every new pool is handled successfully, and then all were handled; otherwise it handled a prefix and stopped at the first failure, with its error |
| `PoolListener.ProcessAllAppend` | raydiumpoolsubscription/src/alternate_main.rs:43-49 | the second part of a list is handled only if the first part passed |
| `PoolListener.TickStep` | raydiumpoolsubscription/src/alternate_main.rs:43-49 | checking one more address leaves a known address unhandled, handles an unknown one, and ends the tick with its failure |
| `PoolListener.PoolDiff.constructor` | raydiumpoolsubscription/src/alternate_main.rs:35 | the initial snapshot becomes the known pools and nothing is reported |
| `PoolListener.PoolDiff.Tick` | raydiumpoolsubscription/src/alternate_main.rs:38-53 | the handled addresses and the result are those of handling the new pools in snapshot order; after a complete tick the known pools are replaced by the current snapshot |
| `PoolListener.Poll` | raydiumpoolsubscription/src/alternate_main.rs:38-56 | defines the `loop`: each tick queries a snapshot, handles its new addresses relative to the known snapshot, and replaces the known snapshot; the first error ends it |
| `PoolListener.Listen` | raydiumpoolsubscription/src/alternate_main.rs:31-57 | defines `start_listening`: a failing initial query ends it; otherwise `Poll` runs from the initial snapshot |
| `PoolListener.StartListening` | raydiumpoolsubscription/src/alternate_main.rs:31-57 | the handled addresses and the result are those of `Listen`: the initial snapshot, then one diff per tick, ending at the first error |
| `PoolListener.FailureIsFinal` | raydiumpoolsubscription/src/alternate_main.rs:38-56 | once a run has failed, later ticks change nothing |
| `PoolListener.PollReportsDiffs` | raydiumpoolsubscription/src/alternate_main.rs:38-56 | when every snapshot query succeeds and the account fetch passes for every address of that tick's snapshot, the run handles exactly each snapshot's new addresses relative to the previous snapshot, in order |
| `PoolListener.ReappearingAddressReportedAgain` | raydiumpoolsubscription/src/alternate_main.rs:52 | an address that leaves the snapshot and comes back is reported again |
| `PoolListener.StayingAddressNotReported` | raydiumpoolsubscription/src/alternate_main.rs:43-52 | an address present in the known pools and in two consecutive snapshots is never reported |
| `PoolListener.UnchangedSnapshotReportsNothing` | raydiumpoolsubscription/src/alternate_main.rs:35-48 | a snapshot equal to the known one reports nothing |
| `PoolListener.ThirdPoolExample` | raydiumpoolsubscription/src/alternate_main.rs:43-48 | known {A, B} followed by {A, B, C} reports C alone |
| `PoolListener.DuplicateReportedPerOccurrence` | raydiumpoolsubscription/src/alternate_main.rs:43-52 | an unknown address occurring twice in one snapshot is reported twice |

## Left out

- `raydiumpoolsubscription/src/main.rs` is not part of this model. Its polling loop only issues node calls and prints, with sleeps and retries.
- The node clients (`RpcClient`, `PubsubClient`, `logs_subscribe`, `get_transaction`, `get_program_accounts_with_config`, `get_account`) are not modelled. The answers of `logs_subscribe`, `get_transaction`, `get_program_accounts_with_config` and `get_account` are parameters that may be errors.
- TokenMonitoring.TokenMonitor.constructor: the failure of `PubsubClient::new` at `alternate_main3.rs:55` is not modelled; the constructor always succeeds. That failure writes to neither log and ends the run with an error, just as a failed `setup` of `MonitorNewTokens` does.
- The subscription's setup is one abstract outcome: parsing the `RAY_FEE` placeholder address and subscribing. The subscription filter is not modelled.
- The async runtime, `sleep`, and channel suspension are not modelled. The notification channel is the finite sequence delivered before it closes.
- StartListening: the source loops for ever. The model runs over a finite sequence of observed ticks and returns success when they run out.
- Within one tick, the account fetch is a function of the address, so two occurrences of one address get the same answer.
- The account-size filter of the snapshot query (592 bytes) is applied by the node and is not modelled: a snapshot answer is taken to hold pool accounts only.
- Floating point: `lp_amount` is a `real`. The rounding of `as_f64` on large integers is not modelled.
- Base58 parsing of signatures is an abstract function field of the monitor. It returns the canonical text or the parser's message.
- Serialization (`to_string_pretty`) is not modelled. A record is stored as the record value itself, and a serialization failure is not modelled.
- A failed `write_all` may leave a partial write. The model records nothing for a failed write.
- The check for missing metadata at `alternate_main3.rs:96-100` cannot fail, because the earlier test already returned "no event". It is not modelled as a separate branch.
- Console output, `info!`/`error!` logging, colours and the `main` functions are not modelled.
