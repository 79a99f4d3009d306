# Verified model of the WhatsApp listing pipeline

This Dafny 4.11 project models the parts of the repository where several processes, clocks or passes
interact, and proves what they promise. `dafny verify dfyconfig.toml` checks everything.

## What is modelled

**The parse pipeline** (`ParseProtocol`, `ParseSafety`, `ParseTheorems`, `ParseContent`, `ParseTokens`, `ParseWorker`, `ParseDrain`,
`ParseEffects`).
`raw_messages`, the Upstash list, any number of workers, `listings`, and `parse_jobs` as the ledger. Each SQL
statement and each queue call is one atomic event. Workers claim, read, store, finish, throw, crash (losing
their place, batch and timers), reap, poll, recover and re-enqueue; producers lose their enqueue; the queue
loses entries; a full reprocess and stale batch writes run alongside. The theorems hold in every reachable
state of every interleaving, for every parser, every batch pass and every assignment of group names that is
fixed during a run.

- Identity columns never change, and `done` implies a listing. Without the normalising batch tool every listing
  equals the derivation of its raw row; with it, the derivation after some number of passes. All runs agree on
  the columns exactly when one pass leaves the derivation as it is or no run lists the message; for the repository's
  own parser and tool, when the message was refused or its price survives its column, and otherwise there are just
  two contents.
- The group name depends on the path a message took. It is the same in every run exactly when the group is
  monitored under a non-empty name, or neither the group nor the payload has a name.
- A message whose derived row the columns refuse (200 bedrooms in a NUMERIC(3,1), a fractional area in an INT) throws
  at its write for ever: no run lists it, and the drain ends with it dead.
- A `dead` job is not final: a restart can find its message again and complete it, exactly when its row fits.
- The reaper never takes a job from a worker that keeps within the stale threshold, and no claim is returned
  by two reaper updates.
- Without faults each message is in exactly one place and is delivered at most ceil(MAX_ATTEMPTS/2) times,
  since a failing delivery counts two attempts: one at the claim, one at the failure record.
- With the queue unreachable, reaper sweeps and direct polls alone bring every message to a listing or to
  `dead`, within a number of rounds fixed in advance, from any reachable state and against any adversary that
  fails or crashes attempts. The rounds are runs of the protocol's events.
- The last delivery of a message wins, whether it was listed before or not. A failing delivery comes back after its
  delay, four times the one before, and the reaper puts back exactly what it re-armed.
- The report after every 25th job asks the queue for its length. If that throws, a job that is done and listed goes
  through the failure branch.

**The derivation of a row** (`Normalize`, `Merge`, `Reprocess`, `Doubles`). Regular expressions, lookup tables and
language models are arbitrary functions of the text. `normalize` is idempotent and its quarantine is sound; what
becomes of every field, from the models' answers through the merge and the repairs to the stored column, is stated.
The header of `src/ops/reprocess.js` calls the batch pass idempotent. What it writes is a fixpoint exactly when the
price is representable in `NUMERIC(14,2)`, or neither the price nor its rounding is suspicious, or a verdict hides
the row (7.125 is none of these). What it reports as changed is empty exactly when, besides, the row is hidden or
the recomputed confidence is not above the stored one. It can be above: the weights are added as IEEE doubles, the
sum 0.2 + 0.2 + 0.15 + 0.05 + 0.1 is the double after 0.7, and the column stores 0.700. Such a row is reported by
every later run although nothing changes.

**The services around it.** The sliding-window limiter of both model clients (`RateLimiter`), the paginated
harvest of large groups (`Harvest`), the page lock and the backfill batches (`PageLock`, `BackfillBatch`), the
command list and the bridge's fence (`CommandChannel`, `BridgeFence`), the circuit breaker (`CircuitBreaker`),
the ownership lease (`Lease`), the response cache (`Cache`), one-time stream tokens (`Nonce`) and the listing
query (`ListingQuery`).

## How the code is represented

Where the source updates objects, there are classes and loops whose contracts equate the new state with a
specification function of the old one. Where the source awaits, it is cut there: the stretches between two
awaits are atomic steps, and whole runs are sequences of steps in any order. Time is a parameter. Theorems over
histories with a clock say so in their hypotheses when they need a clock that does not run back. The
confidence is added up in IEEE double arithmetic, exactly (`Doubles`); ratios and prices are reals, rounded where a
column rounds them.

## Where code and documentation differ

The model follows the code.

- `ARCHITECTURE.md` line 74 says `ON CONFLICT (raw_message_id) DO NOTHING` for listings; the worker updates.
- A comment in `src/worker/parseWorker.js` (line 382) keeps dead jobs for an operator; startup recovery ignores `parse_jobs`.
- The comment at line 767 of `src/scraper/whatsapp-qr-bridge.js` says messages are persisted oldest first; with
  two or more pages the newest page comes first (`ChronologicalOnOnePage`).
- The comment in `circuitBreaker.js` says only the probe runs in HALF_OPEN; a call still in flight from before
  the circuit opened breaks that, and nothing else does (`SingleProbeExactlyWhenIdle`).
- `merge` promises a bonus for agreement, but compares after it has overwritten the record (`BonusCountsWhatTheRulesFound`).
- The in-memory lease tells an owner that a second acquire succeeded; the Redis path refuses it.

## Model

| member | source | states |
|---|---|---|
| ParseSafety.StepKeeps | src/worker/parseWorker.js:58-405 | Every event of every process keeps the invariant of the tables, the queue, the timers and the workers, and never changes a raw row or a listing's identity |
| ParseSafety.RunKeeps | src/worker/parseWorker.js:308-418 | The invariant holds after every run of any length |
| ParseTheorems.ListingsAreDerivations | src/worker/parseWorker.js:69-174 | In every reachable state each listing is the derivation of its raw row after some number of batch passes, carries that row's identity and a possible group name, and `done` implies the listing |
| ParseTheorems.IdentityPersists | src/worker/parseWorker.js:100-136 | From any reachable state on, raw rows stay as they are and listings neither vanish nor change their identity columns |
| ParseContent.PipelineIsConfluent | src/worker/parseWorker.js:58-405 | In every run without the normalising batch tool, every listing equals the derivation of its raw row, for every parser |
| ParseContent.ColumnsConfluence | src/worker/parseWorker.js:85-157 | All runs, batch passes included, agree on a message's columns if and only if one pass leaves the derivation as it is, or its columns refuse the message and no run lists it |
| ParseContent.RealColumnsConfluence | src/ops/reprocess.js:78-169 | For the repository's parser and batch tool: if and only if the message was refused, its price survives its column, or its columns cannot hold the row |
| ParseContent.AtMostTwoContents | src/ops/reprocess.js:78-169 | In all runs a listing shows its derivation or one batch pass over it, nothing else |
| ParseTheorems.GroupNameConfluence | src/worker/parseWorker.js:69-143 | All runs give a message's listing the same group name if and only if its group has a non-empty monitored name, or neither the group nor the payload has a name, or its columns refuse it and no run lists it |
| ParseTheorems.QueueRun | src/worker/parseWorker.js:58-174 | For a message that fits its columns, a run through the queue ends with a listing whose group falls back to the producer's payload |
| ParseTheorems.PollRun | src/worker/parseWorker.js:227-257 | Likewise a run through the direct poll ends with a listing whose group has no fallback |
| ParseTheorems.RecoveryRun | src/worker/parseWorker.js:269-304 | Likewise a run through startup recovery ends with a listing whose fallback is the monitored name itself |
| ParseTheorems.DeadIsNotFinal | src/worker/parseWorker.js:272-298 | From any reachable state with an idle worker and an empty queue, some run lists a dead unlisted message and completes its job if and only if the columns can hold its derived row |
| ParseTheorems.RefusedIsNeverListed | src/db/postgres/000_core.sql:78-99 | In no reachable state is a message listed whose derived row the columns refuse, however often it is tried |
| ParseTheorems.ReaperSparesTheLiving | src/worker/parseWorker.js:181-195 | While workers stay within the stale threshold after their claim, the reaper's update hits no job that a live worker holds |
| ParseTheorems.ClaimReapedOnce | src/worker/parseWorker.js:181-218 | What a reaper's update would return was returned by no earlier update: concurrent reapers never re-arm one claim twice |
| ParseTheorems.NothingInvisible | src/worker/parseWorker.js:181-240 | Every unlisted message that is not dead is visible to the direct poll, or to the reaper once its claim is stale |
| ParseTheorems.OfferedAtMostOnce | src/db/dualWrite.js:70-113 | The producer enqueues each stored message at most once, however often it is delivered to it |
| ParseEffects.LastDeliveryWins | src/worker/parseWorker.js:58-168 | From any reachable state a delivery that runs through, of a message listed before or not, leaves the listing derived afresh, with the monitored name or else this payload's, its row's identity and a done job; other listings stay |
| ParseEffects.StoreOverwrites | src/worker/parseWorker.js:93-161 | In any state one write gives the listing the derived group and columns, and leaves the id, user and time of a row that was there |
| ParseEffects.ReprocessRefreshes | src/ops/reprocess.js:171-213 | A full reprocess and one delivery derive the listing of any stored message that fits anew, listed or not |
| ParseEffects.BatchPassWrites | src/ops/reprocess.js:127-166 | An undisturbed batch pass writes columns and group name, refreshing a missing or raw name, and touches neither identity nor other rows |
| ParseEffects.RetryComesBack | src/worker/parseWorker.js:389-404 | A failed delivery with attempts left is at the newest end of the queue once its delay is over, and not a moment earlier |
| ParseEffects.ReaperRequeues | src/worker/parseWorker.js:181-221 | The reaper and any number of its enqueues are a run that marks exactly the stale claims and puts exactly the re-armed rows, with their own text and monitored name, into the queue in order |
| ParseEffects.PollTakesTheOpen | src/worker/parseWorker.js:227-240 | The direct poll takes any batch of distinct unlisted messages that nobody is at work on and that are not dead, and no other |
| ParseEffects.RecoveryTakesTheUnlisted | src/worker/parseWorker.js:269-285 | Startup recovery takes any stored messages without a listing, whatever their jobs say, and no others |
| ParseEffects.CrashLosesItsOwn | src/worker/parseWorker.js:392-404 | A crash loses the worker's place, its batch and its own retry timers, and nothing else |
| ParseEffects.LossesLoseOne | src/db/dualWrite.js:106-116 | A lost enqueue, timer or queue entry is one payload less and nothing else |
| ParseTokens.ExactlyOneCopy | src/worker/parseWorker.js:308-405 | In a fault-free run every stored message is in exactly one of producer, queue, one worker, one retry timer, done, dead |
| ParseTokens.RetriesAreExact | src/worker/parseWorker.js:359-405 | No message is delivered more than ceil(MAX_ATTEMPTS/2) times; a dead one exactly that often; one waiting in the queue or a timer less often; its i-th retry came after the delay for 2i attempts |
| ParseTokens.BackoffGrows | src/worker/parseWorker.js:399 | Later backoffs are never shorter and never exceed 900,000 ms |
| ParseTokens.BackoffDoubles | src/worker/parseWorker.js:399 | The first delay is the configured one, every further one twice the one before, each at most 900,000 ms |
| ParseTokens.DefaultDelays | src/worker/parseWorker.js:28-29 | With the default 60,000 ms the first two failing deliveries wait 120,000 and 480,000 ms |
| ParseTokens.ScheduleGrows | src/worker/parseWorker.js:399-404 | The delays of a message's successive retries do not shrink and stay under the cap |
| ParseTokens.ReaperIsIdle | src/worker/parseWorker.js:181-195 | At the end of every fault-free timely run the reaper finds no stale job |
| ParseWorker.Worker.ProcessOne | src/worker/parseWorker.js:58-174 | The sequential code has exactly the effect of the attempt; it returns exactly for a missing row, or a row that fits without a throw, the report after every 25th job included; then the listing is overwritten field by field and the job is done |
| ParseWorker.Worker.DeliverOne | src/worker/parseWorker.js:330-405 | Takes the oldest payload; a thrown error, also one after `done`, reaches the failure branch, a crash does not, and nothing else changes |
| ParseWorker.Worker.ReapStuckJobs | src/worker/parseWorker.js:181-221 | Exactly the stale rows become dead or pending with a new stamp, and exactly the first of the re-armed ones that the queue takes are enqueued in order, each with the row's own id, text and monitored name |
| ParseWorker.Worker.ProcessOrphansDirect | src/worker/parseWorker.js:227-257 | Processes its batch in order, goes on after an error, stops at a crash, and counts exactly the calls that returned: without failing reports, the jobs it completed |
| ParseWorker.AttemptIsARun | src/worker/parseWorker.js:58-174 | The sequential attempt is, on the tables, a run of the protocol's events, for each way it can end, and leaves the worker where the code does |
| ParseWorker.FailureIsARun | src/worker/parseWorker.js:362-405 | The sequential failure branch is the run of the protocol's failure events, on ledger and timers |
| ParseWorker.FailureCountsOnce | src/worker/parseWorker.js:366-404 | Every failure costs one attempt and is stamped; the job is dead at MAX_ATTEMPTS and only then, else it has exactly one retry, due after exactly the delay for its attempts; other jobs stay |
| ParseWorker.ReportUndoesDone | src/worker/parseWorker.js:163-173 | When the report of a 25th job throws, the message is listed and was done, and its job becomes failed with a retry, or dead |
| ParseWorker.WriteIsARun | src/db/dualWrite.js:56-116 | The producer's sequential code is the run of its insert and its enqueue, kept or lost |
| ParseWorker.DeliveredOnce | src/db/dualWrite.js:70-113 | Keys stay unique, and delivering a message again changes neither rows nor queue |
| ParseDrain.ReachableIsSound | src/worker/parseWorker.js:58-405 | In every reachable state `done` implies the listing and `dead` implies used-up attempts |
| ParseDrain.RoundIsARun | src/worker/parseWorker.js:181-257 | One reaper sweep with the queue unreachable and one direct poll, with any failures and a crash, is a run of the protocol |
| ParseDrain.SomeRound | src/worker/parseWorker.js:181-240 | Such a round is possible in any state, at any later time, with any fate for its attempts |
| ParseDrain.RoundsAreARun | src/worker/parseWorker.js:181-257 | Any sequence of such rounds, each begun after the one before, is a run of the protocol that ends in the tables of the last round |
| ParseWorker.Drained | src/worker/parseWorker.js:181-257 | On the tables: after any sequence of rounds as long as the total rank, with any fates, every message has a listing or is dead |
| ParseDrain.DrainsFromAnyState | src/worker/parseWorker.js:181-257 | From any reachable state a run of the protocol goes through exactly the given rounds, whatever fates they give the attempts; if they are as many as the total rank, every message is listed or dead afterwards, and dead if its columns refuse it |
| ParseWorker.FreshBound | src/worker/parseWorker.js:28-46 | For messages never tried the bound is (2 MAX_ATTEMPTS + 2) rounds per message |
| Normalize.MessageParser.Normalize | src/scraper/message-parser.js:536-589 | The in-place pass equals the composition of its repairs; a stale currency of an earlier call never leaks into the record |
| Normalize.MessageParser.CheckSanity | src/scraper/message-parser.js:598-642 | The in-place guardrail sets reason and confidence as the judgement says and touches nothing else |
| Normalize.Dedupe | src/scraper/message-parser.js:568-574 | The ordered union of amenities holds exactly the elements given, each once |
| Normalize.BackfillSettled | src/scraper/message-parser.js:536-575 | After one pass none of the four repairs has anything left to do, whatever the extractors are |
| Normalize.NormalizeIdempotent | src/scraper/message-parser.js:526-643 | For every record and text, a second pass changes no field |
| Normalize.QuarantineSound | src/scraper/message-parser.js:578-643 | A visible row was not refused and its price is in no forbidden band; a row has a reason exactly when it was refused, carries a verdict, or its price is implausible |
| Normalize.RaiseOnly | src/scraper/message-parser.js:576-586 | A visible row keeps the higher of its confidence and the score of its repaired facts, and scores lie in [0, 1] |
| Doubles.SeventyOvershoots | src/scraper/message-parser.js:488-505 | The double sum of the weights for place, phone, rooms, furnishing and wording is the double after that of 0.7 |
| Doubles.ScoreMonotone | src/scraper/message-parser.js:488-505 | Whatever the roundings do, fewer fields never score higher |
| Normalize.LocationRepaired | src/scraper/message-parser.js:517-552 | A row with a place has the same place in all three fields, and a property attribute stays a place only if the text itself reads so |
| Normalize.PlaceChosen | src/scraper/message-parser.js:517-552 | The first place given is kept in all three fields unless it is a property attribute; a missing one or an attribute gives way to what the text reads; an attribute that nothing replaces is cleared |
| Normalize.PriceAndFurnishingFilled | src/scraper/message-parser.js:554-567 | Price, currency and furnishing that are there are kept; a missing price is read from the text, and a missing currency only with it |
| Normalize.AmenitiesUnited | src/scraper/message-parser.js:568-574 | No amenity is lost, those of the text come behind, each once |
| Normalize.RestKept | src/scraper/message-parser.js:536-589 | Every other field of the record stays as it was |
| Normalize.ReasonExact | src/scraper/message-parser.js:598-642 | The reason, with its price and currency, for every record: refused, an earlier verdict, a price of at most 100, a rent above 2,000,000 or 100,000 US dollars, or none |
| Normalize.ScoreIsDecimalSum | src/scraper/message-parser.js:488-505 | The double score is the decimal sum of the nine weights of the present fields, at most 1, up to 10^-12 |
| Merge.DetectConflicts | src/scraper/dual-parser.js:25-71 | The pushed conflicts are exactly those of the place, the price ratio and the furnishing, in order |
| Merge.DetectConflictsFull | src/scraper/dual-parser.js:74-93 | Adds the conflicts with the room configuration read from the text |
| Merge.ConflictsAreDisagreements | src/scraper/dual-parser.js:25-93 | A field is in conflict exactly when text and record disagree on it, in the order place, price, furnishing, rooms |
| Merge.MergeRecords | src/scraper/dual-parser.js:100-175 | The merge with its agreement loop equals the specification that the next lemmas are about |
| Merge.MergeSettlesConflicts | src/scraper/dual-parser.js:25-175 | A merged record has no conflict with the rules left, except that a text read as a studio always looks like one |
| Merge.BonusCountsWhatTheRulesFound | src/scraper/dual-parser.js:158-168 | The agreement bonus counts the rooms and the place the rules found whatever the model said, and the price unless the model's own, different price was kept |
| Merge.ConsensusPaysFromOneHalf | src/scraper/dual-parser.js:206-210 | The reconciled confidence is the higher one times 0.7 + 0.6 of the agreement, at most 1; so it is at least the higher one if and only if the models agree on half of the fields |
| Merge.ReconcileLosesNothing | src/scraper/dual-parser.js:178-214 | Each of the nine reconciled fields is the first model's if it has one, else the second's; amenities are united; all other fields stay the first model's; the record is a listing if either says so |
| Merge.ParseFit | src/scraper/dual-parser.js:223-288 | Whatever the models answer, a live record keeps parking found by the rules and has its location in a stored column |
| Merge.ParseFieldByField | src/scraper/dual-parser.js:223-288 | Every field of the final record: the second answer counts exactly after a disagreement; the rules win the place, a price missing or more than a quarter off, rooms and furnishing; amenities are united; the rest, the refusal included, is the primary record's |
| Merge.ShortTextsAreRefused | src/scraper/dual-parser.js:224-225 | A text under four characters gives a refusal that knows nothing |
| Reprocess.LiveBatchAgree | src/ops/reprocess.js:100-142 | A live row, stored, reloaded and normalised again, is reported unchanged if and only if the message was refused or its price survives its column, and the row is hidden or its recomputed confidence is not above the stored one |
| Reprocess.LiveRowIsFixpoint | src/ops/reprocess.js:100-166 | What the batch tool writes for a live row is that row again if and only if the message was refused or its price survives its column |
| Reprocess.SeventyIsReportedForEver | src/ops/reprocess.js:63-76 | A row scored 0.7 that way is reported as changed by every later pass although no pass changes it |
| Reprocess.PassHolds | src/ops/reprocess.js:148-166 | If the columns hold a live row, they hold what the batch tool writes for it |
| Reprocess.LiveRowColumnByColumn | src/worker/parseWorker.js:124-160 | What the worker stores of a normalised record in each column: empty text as NULL, a missing place from the location, numbers rounded |
| Reprocess.ColumnsRound | src/db/postgres/000_core.sql:78-99 | The NUMERIC columns keep the nearest tenth, cent and thousandth, from the middle away from zero |
| Reprocess.ColumnLimits | src/db/postgres/000_core.sql:78-99 | The columns take up to 99.9 rooms, whole square feet up to 2,147,483,647 and prices below 10^12, and no more |
| Reprocess.BatchDisagreesBelowTheCent | src/ops/reprocess.js:100-142 | The price 7.125 makes the batch pass report a change on an untouched row |
| Reprocess.PipelineAgrees | src/scraper/dual-parser.js:223-288 | End to end, from the answers of the models through merge, normalise and store: the batch tool writes the row back as it is exactly under the price condition, and a second pass never writes anything new |
| Reprocess.StoredConfidenceInRange | src/scraper/dual-parser.js:206-288 | Whatever the models answer, the stored confidence of a live row lies in [0, 1] after clamp, consensus, boost, raise and rounding |
| Reprocess.SweptConfidenceInRange | src/ops/reprocess.js:100-142 | A batch pass keeps it there |
| Reprocess.SweepIdempotent | src/ops/reprocess.js:78-169 | For any stored row, a second sweep reports no change if and only if the row carries a verdict or its price survives its column, and it is hidden or its recomputed confidence is not above the stored one |
| Reprocess.SecondPassWrites | src/ops/reprocess.js:100-166 | A second pass over a rewritten row writes nothing new if and only if the row carries a verdict or its price survives its column |
| Reprocess.GroupSettles | src/ops/reprocess.js:127-131 | One refresh of a missing or raw group name leaves nothing to refresh |
| Reprocess.ReportedExactlyWhenDifferent | src/ops/reprocess.js:63-142 | A row is reported if and only if price, furnishing, amenities as a bag, place, confidence, reason or group name differ from the normalised record, texts that read as numbers compared as numbers |
| Reprocess.RewrittenColumnByColumn | src/ops/reprocess.js:143-166 | A reported row gets the normalised values in the nine written columns and keeps the others; a row that is not reported stays |
| Reprocess.VerdictSticks | src/ops/reprocess.js:103-125 | A `user_flagged` or `not_a_listing` row keeps its reason and confidence 0 through any number of sweeps |
| Reprocess.SelectedRows.RederiveRow | src/ops/reprocess.js:100-142 | Reports a change exactly when a compared field or the refreshed group name differs, and otherwise leaves the row alone |
| Reprocess.SelectedRows.RunNormalize | src/ops/reprocess.js:78-169 | Counts the changing rows, sweeps each row exactly once, and writes nothing in a dry run |
| Reprocess.SecondRunQuiet | src/ops/reprocess.js:78-169 | A second run reports no change if and only if every row settles in its price verdict and its confidence |
| RateLimiter.Limiter.Attempt | src/scraper/llm-parser.js:109-120 | One uninterrupted attempt: shifts, then admits or computes the wait |
| RateLimiter.AdmitsExactlyWhenThereIsRoom | src/scraper/llm-parser.js:109-123 | The shifted queue decides like a limiter that remembers every admission for ever |
| RateLimiter.RateBound | src/scraper/gemini-parser.js:15-28 | No closed 60,000 ms window of the whole history holds more than N admissions, for every interleaving of callers |
| RateLimiter.WaitsAreBounded | src/scraper/llm-parser.js:113-117 | Every wait lies in [250, 60250] ms |
| RateLimiter.OneWaitIsEnough | src/scraper/llm-parser.js:113-119 | A caller that nobody overtakes is admitted at its next attempt if and only if it slept more than the wait without the 250 ms |
| Harvest.CollectPage | src/scraper/whatsapp-qr-bridge.js:707-719 | The scan of a page skips holes and known ids and tracks the oldest message and the cutoff |
| Harvest.ScanTakesNext | src/scraper/whatsapp-qr-bridge.js:707-719 | The scan of any page skips exactly holes and ids it has seen, appends everything else, and raises the cutoff flag exactly at a message with an older time |
| Harvest.ScanFindsOldest | src/scraper/whatsapp-qr-bridge.js:715 | The cursor of the next page is the oldest message that the scan collected, among those that have a time |
| Harvest.HarvestLarge | src/scraper/whatsapp-qr-bridge.js:684-732 | At most ten pages and no id twice against any server; with bounded pages at most 1000 messages; against a chat a newest suffix of at most 1000 messages that covers what the exit says and goes at most one page beyond the cutoff |
| Harvest.HarvestComplete | src/scraper/whatsapp-qr-bridge.js:684-768 | Unless time or the browser failed, the final slice keeps the whole suffix: every message since the cutoff, or the whole chat, or the newest thousand |
| Harvest.HarvestNewest | src/scraper/whatsapp-qr-bridge.js:684-768 | Loop and final slice in one: at most 1000 messages from any server, and from a chat the coverage of the row above |
| Harvest.BlocksAreSuffix | src/scraper/whatsapp-qr-bridge.js:684-732 | The collected pages are, as a multiset, the suffix of the chat |
| Harvest.ChronologicalOnOnePage | src/scraper/whatsapp-qr-bridge.js:767-768 | They are in chronological order if and only if they fit one page |
| PageLock.OneAtATimeInCallOrder | src/scraper/whatsapp-qr-bridge.js:93-98 | At most one callback runs at a time and callbacks start in call order, whichever throw |
| PageLock.OutcomeIsOwn | src/scraper/whatsapp-qr-bridge.js:94-96 | A caller sees the outcome of its own callback and no other |
| PageLock.StepsDoWork | src/scraper/whatsapp-qr-bridge.js:93-98 | Every step but a new call uses up exactly one unit of the remaining work, a throw no less than a return |
| PageLock.NeverStuck | src/scraper/whatsapp-qr-bridge.js:93-98 | While a call is not through, some step of the chain is enabled or a callback is running |
| BackfillBatch.AtMostOneBatch | src/scraper/whatsapp-qr-bridge.js:1008-1045 | The in-flight flag is set exactly while a batch is under way, and there is never a second one |
| BackfillBatch.TwoPassesAtMost | src/scraper/whatsapp-qr-bridge.js:990-1041 | A completed batch harvested every group once in order and then exactly the empty ones again; a broken one a beginning of that |
| BackfillBatch.EmptyMeans | src/scraper/whatsapp-qr-bridge.js:990-1002 | The groups of the second pass are those whose harvest stored nothing, in the order of the first |
| BackfillBatch.GroupIsRecorded | src/scraper/whatsapp-qr-bridge.js:994-998 | What a group's own callback stored is recorded behind its pass and the next group is up; an error ends the batch and lowers the flag |
| BackfillBatch.PassIsFollowed | src/scraper/whatsapp-qr-bridge.js:1018-1045 | A first pass with empty groups is followed, after the wait, by a pass over exactly those if the client lives, by the end if not; any other pass by the end |
| BackfillBatch.BatchNeverStuck | src/scraper/whatsapp-qr-bridge.js:1008-1045 | In every reachable state a batch can take a step, or its group waits for the outcome of its call on the page |
| CommandChannel.Channel.Push | src/api/services/bridgeBus.js:139-141 | A pushed envelope is the newest of the list; nothing else moves |
| CommandChannel.Channel.Trim | src/api/services/bridgeBus.js:142-143 | At most 100 envelopes stay, the oldest go |
| CommandChannel.Channel.SendCommand | src/api/services/bridgeBus.js:129-146 | An undisturbed send leaves its command newest in a list of at most 100 |
| CommandChannel.Channel.Receive | src/api/services/bridgeBus.js:173-186 | The oldest queued envelope is handed over if its signature holds and dropped otherwise |
| CommandChannel.Channel.Clear | src/api/services/bridgeBus.js:151-155 | Everything queued is lost, nothing else |
| CommandChannel.HandedInOrderAtMostOnce | src/api/services/bridgeBus.js:128-195 | After any calls on a channel its handler has seen exactly the delivered envelopes, in the order sent, each once and all signed |
| CommandChannel.EverySentCommandIsAccountedFor | src/api/services/bridgeBus.js:128-195 | After any calls on a channel: sent = handled + refused + trimmed + cleared + still in the list |
| BridgeFence.Bridge.HandleCmd | src/scraper/whatsapp-qr-bridge.js:943-958 | Dispatches and remembers exactly as the fence and the purged map say |
| BridgeFence.DispatchedExactlyWhenFresh | src/scraper/whatsapp-qr-bridge.js:943-958 | A command is dispatched if and only if it is not stale and its signature was not dispatched in the last 5000 ms of the whole history |
| BridgeFence.DispatchesAreSpaced | src/scraper/whatsapp-qr-bridge.js:943-958 | No dispatched command is older than boot minus 2 s, and two dispatches of one signature are more than 5000 ms apart |
| BridgeFence.AlikeMeans | src/scraper/whatsapp-qr-bridge.js:943-958 | Two commands have one signature if and only if name and time stamp agree, where zero is no time stamp |
| CircuitBreaker.CircuitBreaker.BeforeCall | src/api/middleware/circuitBreaker.js:20-49 | Admits as specified, and a refused call changes no field |
| CircuitBreaker.CircuitBreaker.AfterCall | src/api/middleware/circuitBreaker.js:51-79 | Settles as specified, clearing the probe flag in every case |
| CircuitBreaker.CountsTrailingFailures | src/api/middleware/circuitBreaker.js:51-78 | In every interleaving the counter is the trailing run of failures in completion order |
| CircuitBreaker.SequentialMode | src/api/middleware/circuitBreaker.js:20-78 | Between calls that do not overlap, the mode is a function of how the calls ended, for all three modes |
| CircuitBreaker.OpenExactlyAtThreshold | src/api/middleware/circuitBreaker.js:20-78 | Without nested CIRCUIT_OPEN errors it is OPEN if and only if at least `threshold` trailing calls failed, and never half open |
| CircuitBreaker.OpenExactlyForTheTimeout | src/api/middleware/circuitBreaker.js:32-49 | In every interleaving an OPEN breaker admits a call if and only if the timeout has passed since the last failure, and an idle breaker never locks callers out for longer |
| CircuitBreaker.SingleProbeExactlyWhenIdle | src/api/middleware/circuitBreaker.js:21-49 | From a reachable OPEN state, no second call is admitted while the probe runs if and only if nothing was in flight |
| CircuitBreaker.LateAnswerAdmitsTwo | src/api/middleware/circuitBreaker.js:58-67 | The events by which a late success lets a second call run beside the probe |
| CircuitBreaker.FailedProbesReopen | src/api/middleware/circuitBreaker.js:32-78 | A run of failed probes from an idle OPEN breaker reopens it if and only if counter and probes together reach the threshold, and every probe is let through |
| CircuitBreaker.LateSuccessResetsOpenBreaker | src/api/middleware/circuitBreaker.js:62-68 | An idle OPEN breaker with counter 0 is reachable |
| Lease.OwnershipNeverOverlaps | src/api/services/bridgeLease.js:44-114 | Over every run of every set of instances, ownership intervals are disjoint |
| Lease.LivingHolderStays | src/api/services/bridgeLease.js:71-94 | A holder that refreshes within the time to live and does not release is never displaced |
| Lease.OthersDoNotInterfere | src/api/services/bridgeLease.js:44-114 | While a holder keeps its lease alive, a run ends as the run of the holder's own refreshes and releases alone |
| Lease.LeaseLivesAMinute | src/api/services/bridgeLease.js:44-66 | A lease that its owner neither refreshes nor releases is its own for exactly 60,000 ms, whatever others send, and then anyone can take it |
| Lease.MemoryLeases.Acquire | src/api/services/bridgeLease.js:59-66 | Without Redis an acquire always succeeds, also for the owner, whose lease it does not extend |
| Lease.MemoryLeases.Refresh | src/api/services/bridgeLease.js:88-93 | Succeeds exactly when the map still has the entry, also one that has run out |
| Lease.MemoryLeases.Release | src/api/services/bridgeLease.js:112-113 | Removes the user's entry and no other |
| Cache.CacheService.Set | src/api/services/cacheService.js:69-75 | The change becomes part of the log that reads are measured by |
| Cache.CacheService.Get | src/api/services/cacheService.js:77-91 | Returns exactly what the log of changes demands, counts one hit or miss, and its lazy deletion shows in no later read |
| Cache.CacheService.Invalidate | src/api/services/cacheService.js:92-115 | Removes exactly the matching keys and counts them |
| Cache.CacheService.InvalidateListings | src/api/services/cacheService.js:117-124 | Hits all four key families |
| Cache.CacheService.Evict | src/api/services/cacheService.js:128-135 | Removes exactly the expired entries, which no later read can tell, and leaves the counters alone |
| Cache.ReadsTheLastPut | src/api/services/cacheService.js:69-135 | A read sees a put if and only if it is fresh and no put or invalidation of the key came after it |
| Cache.IncludesMeans | src/api/services/cacheService.js:108-111 | A key is hit by a pattern if and only if the pattern stands somewhere in it |
| Nonce.NonceStore.Create | src/api/middleware/auth.js:62-72 | Stores the token in exactly one store, for its user and a minute |
| Nonce.NonceStore.TakeFromRedis | src/api/middleware/auth.js:83-93 | Returns a live token's user and deletes the token in one step |
| Nonce.NonceStore.TakeFromMemory | src/api/middleware/auth.js:95-104 | Deletes the token and yields its user only in time |
| Nonce.NonceStore.Authenticate | src/api/middleware/auth.js:75-110 | Accepts exactly well-formed tokens that a consulted store still holds in time for a user, and records each acceptance |
| Nonce.NonceStore.SweepExpired | src/api/middleware/auth.js:53-58 | Removes exactly the expired in-memory tokens |
| Nonce.AcceptedOnceForItsUserInTime | src/api/middleware/auth.js:50-110 | Over every interleaving and every change of store, a token is accepted at most once, for its user, within a minute |
| Nonce.TokenOpensOnceInTime | src/api/middleware/auth.js:50-110 | A token that is left alone opens its stream for its user if and only if it is used within a minute, whatever else happens in the meantime, and is gone after that |
| ListingQuery.WhereBuilder.Push | src/api/server.js:586-600 | A given filter adds its condition with the next placeholder and its parameter |
| ListingQuery.BuildWhere | src/api/server.js:579-622 | The builder ends with exactly the filters of the request, in order |
| ListingQuery.BuildQueries | src/api/server.js:521-650 | The 400 answers in the code's order, infinite and NaN bounds included, otherwise the page and count queries with their parameter lists |
| ListingQuery.EveryPlaceholderHasItsParameter | src/api/server.js:579-600 | The placeholders are $1, $2, ... in order, one for each parameter |
| ListingQuery.WhereMeansFilters | src/api/server.js:579-622 | The WHERE keeps exactly the rows every filter wants, under SQL's three-valued logic and with further parameters behind its own |
| ListingQuery.RequestedMeansVisible | src/api/server.js:579-622 | The filters together ask for exactly the rows described in plain terms |
| ListingQuery.QueriesMeanTheRequest | src/api/server.js:624-716 | For every request the page query returns the requested stretch of the list and the count query its length, each at its own NOW(); with a repost filter the list is what the same sender sent at least as often |
| ListingQuery.TotalFitsPage | src/api/server.js:652-716 | Unless a row grows four days old between the two statements, the total is that of the paged list and `hasMore` says whether the next page has rows |
| ListingQuery.PagesPartitionTheList | src/api/server.js:715-717 | Pages at consecutive offsets partition the list, and `hasMore` says exactly whether the next page has rows |
| ListingQuery.PagingIsClamped | src/api/server.js:537-540 | Page sizes from 1 to 500 are taken as they are, larger ones as 500, all others as 250; a negative offset as 0 |
| ListingQuery.SliceIsTheStretch | src/api/server.js:700-702 | A page has the rows from its offset on, as many as the limit allows and the list has |
| ListingQuery.RefusedWhenBoundsAreBad | src/api/server.js:547-552 | A request is refused exactly for a price bound that is no number, or a lower bound above the upper one, infinities included |

## Left out

- Regular expressions, location tables, prompts and the HTTP calls of the models: arbitrary functions of the text, so that no theorem depends on them. `parse` without a Groq result is not part of this model.
- Columns that are only passed through (property type, bathrooms, square metres, vacancy, description, parser name, raw model output): they follow the same rules as the modelled ones.
- JSON types in the models' answers: a field of the wrong type, which the output normaliser passes through, has no value here.
- Text that reads as a number: what `parseInt`, `parseFloat` and `Number` make of a text is an input. In particular a price filter is validated with `Number` and bound with `parseInt`, two independent values here.
- User flags inside the parse protocol: a redelivered message overwrites the flag's reason, so they are only covered for batch sweeps.
- The `/reparse` route, which deletes listings without touching `parse_jobs`, and the scripts: they break "done implies listing" by design.
- `monitored_groups.message_count`: it also counts duplicate deliveries, so no equality holds.
- The LIMIT and ORDER BY of the direct poll and the recovery: any batch the SELECT could return is allowed, which is stronger for safety; the drain only needs a non-empty batch while a row is visible.
- ParseDrain.DrainsFromAnyState: apart from rows that the columns refuse, Postgres statements succeed; the adversary fails or crashes what lies between them.
- ParseTheorems.RefusedIsNeverListed: only the modelled columns refuse a row; the bathrooms and square-metre columns, which are passed through, refuse in the same way.
- Sleeping, idle backoff, throttling and shutdown of the worker loop: they only delay events.
- RateLimiter.RateBound: assumes a clock that does not run back, as the theorem cannot hold without it.
- ParseContent.RealColumnsConfluence: a text under four characters is taken to hold no parking word; the shortest pattern has six.
- The per-message persistence loop after a harvest, `openChat` retries, the peek loops and the small-group harvest: one call each into code that is not part of this model.
- PageLock.NeverStuck: does not say that a callback settles, which is up to the browser; a callback that waits for the lock itself does not occur in the source.
- Partial Redis failures (push without trim but with an error, GET then DEL instead of GETDEL, an unreadable cached value): assumptions about the environment. Redis keys are taken to be gone from the instant their time is over.
- CommandChannel.Channel.Receive: a delivery to an unconnected consumer is not modelled; neither is the in-process event bus used without Redis, nor the command file, which feeds the same fence.
- BridgeFence.Bridge.HandleCmd: signatures are pairs of name and time stamp; the source joins them with a bar, which is the same for numeric time stamps.
- Refresh timers of the lease: any schedule of refreshes is covered instead of the fixed 20 s.
- The Redis side of the cache and the hash-keyed result caches of the models: the first is Redis itself, the second depends on a hash without collisions.
- Nonce.NonceStore.Create: that random tokens are new is a hypothesis of the run theorem.
- The statistics query and the pattern that recognises non-property messages: the first shares the WHERE, the second is a boolean of the row. Rows with equal `created_at` are taken to come in the same order each time.
- Spawning bridges, Chrome, file tailing, event streams, the dashboard, Clerk, metrics, logging, migrations, SQLite and BullMQ paths: plumbing.
