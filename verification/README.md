# Verified model of the relay's billing, routing and conversion core

This project models the parts of the LLM relay that hold money, loop over channels or carry state from one chunk to
the next, and proves what every run of them keeps. Each module follows one component of the repository. Code that
updates an object is a class whose methods are proved against specification functions; the laws are lemmas about those
functions. Everything outside (database writes, cached reads, the wallet platform, circuit breakers, channel lookup,
clocks, Unicode tables, the square root) is an argument that may answer anything.

| module | component |
|---|---|
| `BillingSaga` | freeze, pre-debit, settle or refund for one request, with compensation and outbox fallback |
| `BillingOutbox`, `OutboxWorkers`, `OutboxDeployment` | the retry outbox, for one worker, for any interleaving of several, and by how many there are |
| `WalletOnce` | the saga and its outbox together, for one pre-authorisation |
| `ChannelRouting` | retry counter, selection across automatic groups, the relay loop |
| `RelayBilling` | pre-consumption, routing loop and deferred refund together |
| `ClaudeStream`, `ClaudeStreamLaws`, `ClaudeStreamNesting`, `ClaudeStreamServed`, `ClaudeStreamDetails` | OpenAI chunks to Claude events; message shape, payload, block bracketing, what the stream driver makes of them, and stop reasons, tools and block indices |
| `MultiKeyChannel`, `KeyText`, `KeyDeletion` | several keys per channel; the text column they are stored in; deleting them |
| `VideoTask` | polling, re-billing and refunding an asynchronous task |
| `SundaySearch`, `Utf8` | substring search by bytes with a table keyed by runes |
| `UsernameAllocation` | deriving a free username |
| `TokenEstimator`, `ImageTokens`, `OpenRouterCost`, `Numbers` | token and cost arithmetic over exact reals |

## Where the code does not do what it says

For each of these promises a lemma or a method's contract says exactly, in both directions, when the code keeps it.

- Substring search is right on every text exactly for ASCII patterns (`CorrectExactlyForAscii`); any other pattern is
  missed in some text that contains it.
- Returning pre-consumed quota is documented as safe to repeat (`internal/app/pre_consume_quota.go:19-21`); it is
  exactly when nothing is left to refund and no pre-authorisation is carried
  (`ReturnTwiceHarmlessExactlyWhenNothingHeld`).
- Every pre-authorisation "must be settled or released" (`internal/app/pre_consume_quota.go:34`);
  `GrantActedOnExactlyOnceUnlessLeft` lists exactly the paths on which nobody acts on it.
- A rejected pre-consumption leaves the token debited exactly when the user debit, the last write, fails after the
  token's succeeded (`RejectionKeepsBalances`).
- A request that ends without a reply is free unless it ends without an error too, which happens exactly when every
  circuit breaker up to the last retry is open; then its held quota is not refunded (`RelayBilling.Relay`).
- Claiming outbox rows is documented to keep two workers apart (`internal/app/billing_outbox.go:87-88`), but the locks are
  not held in a transaction. Over all runs each row gets at most one successful call exactly when there is at most one
  worker and no write of its is lost (`CallsAtMostOnceExactlyWhenLoneAndReliable`); the server starts one worker in every
  process (`cmd/server/main.go:215-228`). The limit of ten attempts per row holds under the same condition
  (`KeepsToRetriesExactlyWhenLoneAndReliable`), and so does one wallet action per pre-authorisation from the request to
  the last retry (`OneWalletActionExactlyWhenLoneAndReliable`).
- Deleting one key keeps the other entries as they were exactly when the remaining keys survive the text column they
  are joined into (`DeleteKeepsTheRestExactlyWhenLasting`). Keys put in by replacing the column are stored as given
  (`internal/adapter/handler/channel.go:1072-1076`), so blank keys can be among them.
- Deleting all auto-disabled keys at once equals deleting them one at a time exactly when there is none or some key
  that is not blank stays, for keys without line breaks (`BulkAgreesExactlyWhenInkRemains`); a key with one, which only a
  channel stored as a JSON array can hold, is split by the first write, and then the wrong key can be deleted
  (`KeyOverTwoLinesIsMistaken`). When none stays, nothing is stored of the shorter key list, because an update leaves out
  empty fields (`internal/adapter/repo/channel.go:526-573`), and deleted keys come back enabled.
- The last chunk of a stream is converted without being counted. The message starts exactly once if and only if the
  stream has three chunks, or two of which the first finishes (`ServedStartsOnceExactlyWhenLongEnough`); such streams
  are served like counted ones (`ServedAsCounted`), and `SingleChunk` and `TwoChunks` say what the others lose.
- A poll of a video task conserves the user's balance plus what the task holds exactly when it loses neither a re-billing
  nor a refund (`PollConservesExactlyWhenNothingLost`); a re-billing whose row cannot be saved is billed again by the
  next poll (`LostSaveBillsTwice`).
- A reply with tokens, of a model with a price, is free exactly when it is worth less than one quota unit, although one
  worth nothing is charged a unit (`FreeExactlyBelowOneUnit`).

The guard for a non-zero reported cost lets a missing cost and a cost of 0.0 through (`internal/app/quota.go:268`).
`ZeroCostInfersWriteExactly` says exactly when a cache write is inferred from it: never while cache writes cost more than
prompt tokens, as they do at every ratio the repository configures.

Several tool calls in one chunk that name no index are numbered from the running index, which each call moves on, so the
third call and later ones skip indices (`MissingIndicesAreTriangular`).

Two comments describe something the code does not do, and the model follows the code: channel selection is said to use
a start index (`internal/app/channel_select.go:56-82`), where the counter itself is reset; and the fallback name for an
empty username (`internal/adapter/handler/internal_api_ext.go:325-327`) cannot occur, since the name always starts with
two safe characters.

## Model

| member | source | states |
|---|---|---|
| BillingSaga.Request.PreConsumeQuota | internal/app/pre_consume_quota.go:69-123 | the whole new state and the result, on every failure path, as `PreConsumed` |
| BillingSaga.Request.PreConsumeTokenQuota | internal/app/quota.go:488-510 | debits the token exactly when the read, the limit and the write allow it |
| BillingSaga.Request.PostConsumeQuota | internal/app/quota.go:512-627 | the whole new state and the error result under any failing write or wallet call, as `Consumed` |
| BillingSaga.Request.ReturnPreConsumedQuota | internal/app/pre_consume_quota.go:22-36 | refunds what is held, then releases, as `Returned` |
| BillingSaga.Request.ReleasePlatformPreAuth | internal/app/pre_consume_quota.go:40-60 | one release call, its outbox row only if the call fails, the identifier kept |
| BillingSaga.Request.SettleDifference | internal/app/quota.go:315-336 | books only the difference between final and held quota |
| BillingSaga.PostConsumeIsAtomic | internal/app/quota.go:512-557 | success moved both balances; an error moved neither, unless there was an amount and the compensating write failed too |
| BillingSaga.RunMovesBalancesTogether | internal/app/quota.go:512-557 | outside the playground, over any run of operations that leaves no debit half done, user and token balance move by the same amount |
| BillingSaga.RejectionKeepsBalances | internal/app/pre_consume_quota.go:69-119 | a rejection keeps the user balance, and the token's if and only if not exactly the user debit failed after a token debit |
| BillingSaga.ServedCostsFinalQuota | internal/app/quota.go:315-336 | pre-consume then settle costs exactly the final quota, for every estimate and trust decision; the cost of a negative estimate is given as well |
| BillingSaga.ReturnRestoresBalances | internal/app/pre_consume_quota.go:22-36 | pre-consume then return restores user and token quota |
| BillingSaga.SettledAmountIsFinalQuota | internal/app/quota.go:568-619 | settled, queued and directly debited amounts times the unit are the final quota |
| BillingSaga.SettlementOnWallet | internal/app/quota.go:564-620 | exactly when a settlement reaches the wallet, and whether it settles, releases or debits, with the amount and the outbox row |
| BillingSaga.ReturnOnWallet | internal/app/pre_consume_quota.go:22-60 | a return releases the carried pre-authorisation and does nothing else to the wallet |
| BillingSaga.RejectionOnWallet | internal/app/pre_consume_quota.go:81-119 | a rejection releases what was granted, except when the user's quota could not be read |
| BillingSaga.FailureOnlyReleases | internal/adapter/handler/relay.go:205-219 | every wallet call and outbox row of a failed request is a release of the granted pre-authorisation |
| BillingSaga.EverySettlementIsBooked | internal/app/quota.go:512-620 | over any run, a settlement is sent only by an operation that charged user and token, for the total it books |
| BillingSaga.AcceptedExactly | internal/app/pre_consume_quota.go:81-123 | when a pre-consumption is accepted and why it is rejected, on what it reads and writes; trust begins above ten units |
| BillingSaga.RunActsAtMostOnce | internal/app/quota.go:564-620 | over any run ending in at most one return, each pre-authorisation gets at most one action of one kind and one outbox row |
| BillingSaga.ActingAfterReturn | internal/app/pre_consume_quota.go:22-60 | return then settle: the kept identifier gets a second call exactly when the settlement reaches the wallet |
| BillingSaga.ReturnTwiceHarmlessExactlyWhenNothingHeld | internal/app/pre_consume_quota.go:19-36 | under any faults of either call, a second return changes nothing if and only if nothing is frozen any more and the refund is nothing or fails without a trace |
| BillingSaga.GrantActedOnExactlyOnceUnlessLeft | internal/adapter/handler/relay.go:205-219 | a granted pre-authorisation gets exactly one action, a settlement of the final quota or a release, or none exactly on the listed paths |
| BillingSaga.RequestCharge | internal/adapter/handler/relay.go:205-305 | local charge of a served, failed and skipped request |
| RelayBilling.Relay | internal/adapter/handler/relay.go:205-305 | billing state after a whole request, free or not; no reply and no error if and only if every breaker is open, and then the held quota is gone, while a failure is free |
| BillingOutbox.Outbox.Enqueue | internal/app/billing_outbox.go:34-73 | appends a pending row unless the table is missing, the insert fails or the action is already queued |
| BillingOutbox.Outbox.ProcessBillingOutbox | internal/app/billing_outbox.go:77-146 | one poll: the table and the calls made, row by row from the claimed copies |
| BillingOutbox.PollKeepsConsistent | internal/app/billing_outbox.go:99-143 | one worker: pending rows have under ten retries, every attempt is accounted for, and the accumulated backoff is respected |
| BillingOutbox.HistoryIsBounded | internal/app/billing_outbox.go:77-146 | every history of enqueues and polls of one worker from the empty outbox: at most ten attempts per row, exactly ten for a failed one, the next retry 10, 20, 40, ... 2560 seconds after the last failure, at most ten busy polls per row |
| BillingOutbox.AttemptedRows | internal/app/billing_outbox.go:99-112 | each claimed row is called for with its own action, pre-authorisation and amount; an unknown action always fails |
| BillingOutbox.EnqueueKeepsConsistent | internal/app/billing_outbox.go:34-73 | a new row starts on schedule with no attempts |
| BillingOutbox.PollMakesProgress | internal/app/billing_outbox.go:90-142 | a poll that finds a ready row strictly lowers the attempts left over all pending rows |
| OutboxWorkers.ClosedRowsAreFinal | internal/app/billing_outbox.go:114-141 | done and failed rows never change, in any interleaving with stale copies |
| OutboxWorkers.RowClosesAtMostOnce | internal/app/billing_outbox.go:114-141 | each row leaves pending at most once |
| OutboxWorkers.DoneOnlyAfterOwnCall | internal/app/billing_outbox.go:104-119 | a row is done only after a successful call with its own action, pre-authorisation and amount |
| OutboxWorkers.ExclusiveRunCallsOnce | internal/app/billing_outbox.go:87-119 | while no row is claimed that is held and writes are kept, each row has at most one successful call |
| OutboxDeployment.CallsAtMostOnceExactlyWhenLoneAndReliable | cmd/server/main.go:215-228 | over all runs from the empty outbox, each row gets at most one successful call if and only if there is at most one worker and its writes are kept |
| OutboxDeployment.TwoWorkersCanBothSucceed | internal/app/billing_outbox.go:87-97 | any ready row in a claim can be called for successfully by two idle workers, with every write kept |
| OutboxDeployment.LostWriteCallsTwice | internal/app/billing_outbox.go:114-119 | one worker that can lose writes can call for it twice |
| OutboxDeployment.KeepsToRetriesExactlyWhenLoneAndReliable | internal/app/billing_outbox.go:121-128 | over all runs no row is attempted more than ten times, under exactly the same condition |
| OutboxDeployment.NineteenAttempts | internal/app/billing_outbox.go:121-141 | two workers that keep their writes can attempt a row nineteen times, as a stale failure takes its count back |
| ChannelRouting.RetriedUnlessFinal | internal/adapter/handler/relay.go:386-426 | an error of the channel is always retried, any other exactly while retries are left, nothing pins the channel and the status is not a final one |
| ChannelRouting.RetryParam.IncreaseRetry | internal/app/channel_select.go:33-42 | steps the counter, or consumes a pending reset instead |
| ChannelRouting.Request.TryGroup | internal/app/channel_select.go:106-154 | one group consulted: log, index, counter and reset flag afterwards |
| ChannelRouting.Request.SelectAuto | internal/app/channel_select.go:89-154 | a selection starts where the last left off, advances group by group and ends at the first success or past the last group |
| ChannelRouting.Request.CacheGetRandomSatisfiedChannel | internal/app/channel_select.go:83-162 | the same with the fixed-group case and the missing configuration |
| ChannelRouting.Request.GetChannel | internal/adapter/handler/relay.go:354-384 | no selection before the first attempt, one per round afterwards |
| ChannelRouting.Request.Attempt | internal/adapter/handler/relay.go:238-301 | an upstream is called exactly when its breaker and the body allow it; the round ends exactly as unreadable, served or answered by an error that does not deserve another attempt |
| ChannelRouting.Request.Round | internal/adapter/handler/relay.go:228-305 | one round: position reached, what ended the loop, and that retryable errors never end it |
| ChannelRouting.Request.Relay | internal/adapter/handler/relay.go:221-305 | termination; the lookups form one chain from the starting group; how the run ended and by which calls; a run that keeps trying ends only past the last group; no reply and no error if and only if every breaker is open |
| ChannelRouting.CallsDecideOutcome | internal/adapter/handler/relay.go:228-305 | every round let through has a call; all calls but the last were answered by an error worth retrying with the retries then left; served if and only if the last was answered without error, given up if and only if with a final one |
| WalletOnce.OneWalletActionExactlyWhenLoneAndReliable | internal/app/quota.go:564-620 | from freezing through all retries of its outbox row, every pre-authorisation sees at most one successful wallet action if and only if there is at most one worker and its writes are kept |
| ChannelRouting.StrictlyIncreasing | internal/app/channel_select.go:106-154 | consulted (group, priority) pairs strictly increase lexicographically |
| ChannelRouting.LookupsBounded | internal/app/channel_select.go:106-154 | at most groups times (retries + 1) lookups in one run |
| ChannelRouting.EveryLaterGroupConsulted | internal/app/channel_select.go:106-154 | every later automatic group is consulted at its first priority, hence selected if it has a channel there |
| ChannelRouting.PrioritiesInOrder | internal/app/channel_select.go:135-152 | inside a group priorities are taken in order |
| ClaudeStream.Converter.Convert | internal/app/convert.go:203-498 | events and new state for any chunk in any state |
| ClaudeStream.Converter.ConvertTools | internal/app/convert.go:383-417 | the tool-call loop with its index rules |
| ClaudeStream.Converter.HandleStreamChunk | internal/adapter/provider/openai/helper.go:22-50 | a counted chunk with its usage noted |
| ClaudeStream.Converter.HandleFinalResponse | internal/adapter/provider/openai/helper.go:215-227 | the last chunk is converted uncounted and ends the converter |
| ClaudeStreamLaws.MessageShape | internal/app/convert.go:203-338 | one start first, content events only, then at most one message delta directly before the one stop |
| ClaudeStreamLaws.NothingAfterFinish | internal/app/convert.go:204-206 | chunks after the first finish reason have no effect |
| ClaudeStreamLaws.RunPayload | internal/app/convert.go:228-308 | the payload of each kind that comes out, for every stream |
| ClaudeStreamLaws.PayloadKeptExactlyWhenNothingCompetes | internal/app/convert.go:365-467 | payload is preserved if and only if no chunk brings some that gives way |
| ClaudeStreamLaws.SingleKindStreamsKeepEverything | internal/app/convert.go:203-494 | streams with one kind per chunk lose nothing up to the finish |
| ClaudeStreamNesting.WellBracketedExactlyWhenOrderly | internal/app/convert.go:203-498 | blocks are well bracketed if and only if each chunk is legal where it comes and a block was opened, or none in a stream that does not finish; single tool calls included |
| ClaudeStreamNesting.WellBracketedWithoutTools | internal/app/convert.go:418-467 | without tools: if and only if reasoning never follows text and something is said, or nothing in a stream that does not finish |
| ClaudeStreamServed.ServedStartsOnceExactlyWhenLongEnough | internal/adapter/provider/openai/relay-openai.go:129-191 | a served stream starts its message once if and only if it has three chunks, or two with the first finishing |
| ClaudeStreamServed.ServedAsCounted | internal/adapter/provider/openai/helper.go:215-227 | such a stream is served as if every chunk had been counted, with the stream's usage on the last |
| ClaudeStreamServed.ServedShape | internal/app/convert.go:203-338 | the message shape of served streams, with exactly one message delta if the last chunk is the first to finish |
| ClaudeStreamServed.ServedPayload | internal/app/convert.go:228-308 | the payload of each kind that a served stream delivers |
| ClaudeStreamServed.ServedPayloadKept | internal/app/convert.go:365-467 | a served stream keeps its payload if and only if no chunk brings some that gives way |
| ClaudeStreamServed.ServedWellBracketed | internal/app/convert.go:203-498 | the same for served streams that are long enough, finished or not |
| ClaudeStreamServed.ServedWellBracketedWithoutTools | internal/app/convert.go:418-467 | the same for served streams without tools |
| ClaudeStreamServed.SingleChunk | internal/adapter/provider/openai/helper.go:215-227 | payload and bracketing of a stream of one chunk, which is converted as a later chunk |
| ClaudeStreamServed.TwoChunks | internal/adapter/provider/openai/helper.go:215-227 | payload and bracketing of a stream of two chunks, the second of which is converted as a first one again |
| ClaudeStreamDetails.RunTellsFinish | internal/app/convert.go:326-338 | the one message delta tells the first finish reason, as end_turn, max_tokens, tool_use or unchanged, and the latest usage |
| ClaudeStreamDetails.ServedTellsFinish | internal/adapter/provider/openai/helper.go:215-227 | the same for what the driver serves, with the usage it reports, however short the stream |
| ClaudeStreamDetails.StopReasonSpells | internal/app/convert.go:542-557 | which stop reason stands for which finish reason |
| ClaudeStreamDetails.RunAnnounces | internal/app/convert.go:383-407 | the tools announced are those the chunks name, under their own identifiers, in order, up to the finish |
| ClaudeStreamDetails.OwnIndicesAreUsed | internal/app/convert.go:390-394 | tool calls that name an index go to the block of that index |
| ClaudeStreamDetails.MissingIndicesAreTriangular | internal/app/convert.go:390-416 | several calls without an index take the blocks 0, 1, 3, 6, ... from the start |
| MultiKeyChannel.Channel.GetKeyStatus | internal/adapter/handler/channel.go:1375-1436 | each key with its status, time and reason from the maps, and the three counters |
| MultiKeyChannel.Channel.DisableKey | internal/adapter/handler/channel.go:1489-1530 | only the status of the addressed key changes, earlier time and reason stay; errors change nothing |
| MultiKeyChannel.Channel.EnableKey | internal/adapter/handler/channel.go:1532-1572 | the addressed key reads as never disabled |
| MultiKeyChannel.Channel.EnableAllKeys | internal/adapter/handler/channel.go:1574-1596 | every key reads as never disabled |
| MultiKeyChannel.Channel.DisableAllKeys | internal/adapter/handler/channel.go:1598-1643 | exactly the enabled positions become manually disabled, and are counted; nothing else changes |
| MultiKeyChannel.EnabledBelowCounts | internal/adapter/handler/channel.go:1396-1407 | the positions counted as enabled are the enabled entries of the status list |
| MultiKeyChannel.Channel.DeleteKey | internal/adapter/handler/channel.go:1645-1723 | the status list without that entry, renumbered, as the stored text gives it back; the last key stays |
| MultiKeyChannel.Channel.DeleteDisabledKeys | internal/adapter/handler/channel.go:1725-1792 | the status list without auto-disabled entries, as the stored text gives it back |
| MultiKeyChannel.Channel.Store | internal/adapter/repo/channel.go:526-573 | the size follows the stored text, statuses beyond it are dropped, and an empty text leaves the old one |
| KeyDeletion.DeleteKeepsTheRestExactlyWhenLasting | internal/adapter/handler/channel.go:1663-1710 | deleting a key keeps the other entries if and only if the remaining keys hold no newline, begin and end with a non-blank one and do not read as an array |
| KeyDeletion.BulkAgreesExactlyWhenInkRemains | internal/adapter/handler/channel.go:1663-1778 | bulk deletion equals deletion one at a time from the top, through the stored text, if and only if there is none to delete or a non-blank key stays |
| KeyDeletion.ReportedAsRead | internal/adapter/repo/channel.go:69-91 | a status list read from any column begins and ends with a non-blank key, or is one blank key |
| KeyDeletion.OneDisabledKeyAgrees | internal/adapter/handler/channel.go:1663-1778 | with one key to delete both ways agree whatever the keys look like |
| KeyDeletion.KeyOverTwoLinesIsMistaken | internal/adapter/handler/channel.go:1663-1778 | with a key over two lines, deletion one at a time removes a wrong key |
| MultiKeyChannel.PageOf | internal/adapter/handler/channel.go:1450-1471 | the page a query gets, with defaults and clamping |
| MultiKeyChannel.PagesCoverTheList | internal/adapter/handler/channel.go:1450-1471 | reading all pages yields every entry once in order |
| KeyText.RoundTripExactlyWhenLasting | internal/adapter/repo/channel.go:69-91 | keys joined into the column are read back if and only if none holds a newline, the ends are not blank and the text is no array |
| KeyText.SizeOfColumn | internal/adapter/repo/channel.go:526-560 | the stored size is the number of keys, except for an empty array |
| KeyText.PlainKeysReadBack | internal/adapter/repo/channel.go:69-91 | plain keys are read back without the blank ones at either end |
| VideoTask.Poller.UpdateVideoSingleTask | internal/adapter/handler/task_video.go:65-279 | row, balance and refunds after a poll with any reply and any failing write |
| VideoTask.Poller.Rebill | internal/adapter/handler/task_video.go:152-240 | the balance and the copy's quota move together or not at all |
| VideoTask.RebilledByTokens | internal/adapter/handler/task_video.go:152-185 | a task is re-billed exactly when tokens are reported and the model has a ratio, to their product with the ratio of the group or the group's own |
| VideoTask.SavedPollRow | internal/adapter/handler/task_video.go:127-267 | status, progress, times, reason and quota of the row after a saved poll, field by field |
| VideoTask.UnsavedPollRow | internal/adapter/handler/task_video.go:75-267 | a poll that cannot fetch, parse, place or save leaves the row |
| VideoTask.RefundedAtMostOnce | internal/adapter/handler/task_video.go:241-276 | over any run a task is refunded at most once, and only as it becomes a stored failure |
| VideoTask.PollConservesExactlyWhenNothingLost | internal/adapter/handler/task_video.go:127-276 | a poll conserves balance plus reservation if and only if it loses neither a re-billing nor a refund |
| VideoTask.ChannelMissingConservesExactlyWhenNothingHeld | internal/adapter/handler/task_video.go:35-46 | the bulk failure of a vanished channel conserves if and only if it is not stored or nothing was held |
| VideoTask.RunConserves | internal/adapter/handler/task_video.go:127-276 | with saves and refunds succeeding, every run conserves, through re-billing too |
| VideoTask.LostSaveBillsTwice | internal/adapter/handler/task_video.go:188-267 | a lost save makes the next poll bill the difference again |
| VideoTask.AbandonedExactlyWhenReportedComplete | internal/adapter/handler/task_video.go:261-267 | a task leaves polling unfinished if and only if a waiting status comes with full progress |
| SundaySearch.SundaySearch | internal/app/str.go:16-51 | terminates in bounds; true only on an occurrence, and on every one for ASCII patterns |
| SundaySearch.NoMatchSkipped | internal/app/str.go:38-45 | no shift jumps over a match of an ASCII pattern |
| SundaySearch.CorrectExactlyForAscii | internal/app/str.go:16-51 | the search decides occurrence on every text if and only if the pattern is ASCII |
| UsernameAllocation.AllocateUsername | internal/adapter/handler/internal_api_ext.go:313-366 | a free, safe name of at most twenty characters with the least free suffix, within taken + 2 checks |
| UsernameAllocation.SanitizedAscii | internal/adapter/handler/internal_api_ext.go:313-324 | the name of an ASCII subject, byte by byte |
| UsernameAllocation.CandidateShape | internal/adapter/handler/internal_api_ext.go:358-365 | a candidate is as much of the base as fits, an underscore and the suffix |
| UsernameAllocation.DigitsAreDecimal | internal/adapter/handler/internal_api_ext.go:358-365 | suffixes are decimal numerals without leading zeros |
| UsernameAllocation.CandidatesDistinct | internal/adapter/handler/internal_api_ext.go:358-365 | different suffixes give different names, even when the base is cut |
| UsernameAllocation.BoundIsTight | internal/adapter/handler/internal_api_ext.go:313-366 | for every number of taken names some subject needs two checks more than there are names |
| TokenEstimator.EstimateToken | internal/app/token_estimator.go:69-148 | the rounded charge of any division of the text into maximal runs |
| TokenEstimator.OneRuneCosts | internal/app/token_estimator.go:34-66 | the charge of each class by each provider |
| TokenEstimator.ClassesInOrder | internal/app/token_estimator.go:82-145 | which runes belong to which class, with adjacent ranges joined |
| TokenEstimator.CountIsChargePerRun | internal/app/token_estimator.go:82-145 | the one-pass count charges each maximal run once |
| TokenEstimator.MaximalRunsExist | internal/app/token_estimator.go:82-145 | every text has such a division |
| TokenEstimator.JoinSavesOneRun | internal/app/token_estimator.go:110-131 | concatenation costs the sum less one charge if a run spans the join |
| TokenEstimator.AdditiveExactlyWhenNoRunSpans | internal/app/token_estimator.go:35-66 | the shipped weights make the count additive if and only if no run spans the join |
| TokenEstimator.MonotoneAndSubadditive | internal/app/token_estimator.go:69-148 | estimates grow with the text at either end and are subadditive |
| ImageTokens.ScaledPatches | internal/app/token_counter.go:143-160 | the patches along either side of an image over the cap, in integer inequalities on its sides; their product exceeds the cap if and only if one side is over 1536 times the other |
| ImageTokens.ScaledToUnique | internal/app/token_counter.go:143-160 | those inequalities leave one count |
| ImageTokens.PatchTokens | internal/app/token_counter.go:137-169 | the patch count of every image and its price to the nearest token; the explicit limit binds exactly for slivers over the cap |
| ImageTokens.TileTokens | internal/app/token_counter.go:171-199 | the tile pairs as an exact function of the sides, stated by cross-multiplication; none if and only if one side is over 4096 times the other |
| ImageTokens.TilesUnique | internal/app/token_counter.go:182-192 | that condition leaves one number of tiles for each pair of sides |
| ImageTokens.NearestUnique | internal/app/token_counter.go:173-179 | and one fitted side for each image |
| OpenRouterCost.InferenceInvertsPrice | internal/app/quota.go:362-381 | the inferred cache writes are those the cost was formed from |
| OpenRouterCost.SplitPrompt | internal/app/quota.go:265-275 | an inference is made for every cost but the integer zero and accepted exactly if it fits; one that explains the cost is accepted |
| OpenRouterCost.InferenceIsNearest | internal/app/quota.go:362-381 | for any cost the inferred count is the one priced within half a write's premium of it |
| OpenRouterCost.OneMoreToken | internal/app/quota.go:277-292 | what one token more of each sort adds, with the rates of either cache duration |
| OpenRouterCost.WorthOfReply | internal/app/quota.go:277-295 | worth by tokens and ratios, or at a fixed price |
| OpenRouterCost.FreeExactlyBelowOneUnit | internal/app/quota.go:277-309 | a reply with tokens is free if and only if it is worth a positive amount below one unit |
| OpenRouterCost.ChargedQuota | internal/app/quota.go:277-309 | nothing for a reply without tokens, otherwise its worth rounded down, one unit if a priced model's reply is worth nothing |
| OpenRouterCost.ChargeFollowsReportedCost | internal/app/quota.go:265-309 | on the inference path the charge is the reported cost times the group ratio, or nothing for an empty reply |
| OpenRouterCost.ZeroCostInfersWriteExactly | internal/app/quota.go:268-273 | from a missing cost or one of 0.0 a cache write is inferred and accepted if and only if writes are cheaper than prompt tokens and the reply's worth lies in a given range |

## Left out

- HTTP, JSON, Redis, gRPC and database plumbing: replaced by arguments for what they answer; a cached quota read may be
  any number.
- Logging, metrics, notifications, daily quota, usage reports and the used-quota counters.
- Realtime pre-consumption and audio pricing: the settlement they call is modelled, their pricing formulas are sums of
  products without a decision in them.
- `GetRandomSatisfiedChannel`, the circuit breaker and context setup: any answer is allowed.
- Several choices in one chunk, block bracketing for chunks with more than one tool call, and tool calls in the first
  chunk next to other content; their events and payload are modelled, their bracketing is not characterised.
- Event indices in the converter are fixed when the event is made; in the code some point at the shared index, which no
  step changes after such an event within one call.
- Rounding errors of floating point: token and cost arithmetic is over reals.
- OpenRouterCost.SplitPrompt: with a zero model ratio the code converts a quotient by zero to an integer; the result is
  an argument.
- ImageTokens.PatchTokens: does not model the choice of prices by model name or the early returns before an image is
  decoded.
- MultiKeyChannel.Channel.Store: does not model the abilities refresh after the write, and the second read of the row
  for an empty text is assumed to succeed.
- KeyDeletion.BulkAgreesExactlyWhenInkRemains: covers keys without newlines, which are all keys of columns that are not
  JSON arrays, and keys that do not themselves begin like an array; a single deletion is characterised for all keys.
- The JSON array parser of the key column is an argument; it is only assumed that elements are not empty and together
  shorter than the text.
- UsernameAllocation.AllocateUsername: taken names are fixed during the search, as they are inside its transaction; the
  64-bit suffix is assumed not to overflow, which needs fewer than 2^63 taken names.
- BillingOutbox.HistoryIsBounded: covers one worker whose row updates succeed; `OutboxDeployment` says what of it needs
  that.
- Choosing the provider of an estimate by the name of the model.
- Sensitive-word filtering, version comparison, paging of other listings, the frontend and the migration script.
