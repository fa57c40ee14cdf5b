# Research memory: bridge, gateway and import, modelled and proved in Dafny

A Dafny 4.11 model of the parts of the research-memory system whose correctness depends on whole runs, graphs or
recursion, with proofs of what they promise. `dafny verify dfyconfig.toml` checks everything.

**The bridge's upload protocol.** `Spool` is the local event table: a class whose methods are the SQLite transactions,
each proved equal to a function on the table. `Drain` and `DrainPass` are the upload loop over it. `Protocol` is a state
machine in which capture hooks, watchers, any number of drains, a gateway that may lose answers, clock movements and
crashes interleave; the gateway reports as stored only ids it holds. `ProtocolSafety`, `ProtocolLease`,
`ProtocolRetries` and `ProtocolLimits` hold what every run satisfies and where the promises end. `Rollout` and `Watcher`
are the incremental reading of a growing transcript, `WatchCapture` its place in the protocol, `Backoff` the retry
delay, `CivilDate` and `Rfc3339` the calendar arithmetic and timestamps whose string order the spool relies on.

**The authorization service.** `OAuth` is the store of clients, requests, codes and tokens as a class of transactions.
`OAuthRuns` interleaves them, the three transactions of a consent separately, and keeps the history that properties of
runs speak about. `OAuthSafety` is the invariant, `OAuthClaims` the promises about refresh families, reuse and the
descent of tokens.

**The ChatGPT import.** `ConversationGraph` is the message graph with cycle detection and root-to-leaf paths, `Branches`
the planning of branches and their snapshots, `Sessions` and `SessionsOrder` the merging of shards and the listing.

**Text and budgets.** `TomlEdit`, `TomlKeys` and `TomlRoundTrip` are the surgical editor of a TOML file's root keys;
`Chunking` is the recursive splitter of oversized sections and
`ChunkSections` the loop over a document that calls it; `Payload`, `Recall` and `ProjectState` are the loops that fit
a payload into a token budget.

`Wrappers`, `Text`, `Seqs` and `Sorting` are shared: option and result types, string order and whitespace, slices of
concatenations, and a sort whose result is unique for distinct elements.

Loops and updates of the program are methods over fields or local variables, proved against functions; the properties
are then proved about those functions. Hash functions, JSON parsing, message text normalisation and the network are
parameters; random draws are steps of a run that never repeat a value.

## Where code and documentation differ

The model follows the code; these are results about it.

- A printed timestamp reads back for the years -999 to 9999 and no others, and string order is time order from year 0 on
  only; between the years -999 and -1 different years compare the other way round.
- The backoff comment promises a delay up to the base; the code never reaches the base once it is 2 or more. The retry
  delay after a transport error always uses attempt 1, and the signed cast of a delay turns negative from 2^63 on.
- `ack`, `reschedule` and `dead_letter` do not look at the current status. A drain that outlives its 120-second lease can
  therefore turn an acknowledged row into `dead_letter`, and an answer that names an id both as stored and as refused
  moves the row twice. A step changes a settled row exactly when it commits a transaction naming it with another status.
  Over runs settled rows are final when drains finish within 120 seconds, which is the exact bound, and answers name ids of
  their batch, none as stored and refused, and refuse an id again only for good; an answer that refuses an id for now and
  then for good contradicts itself about nothing, and still a `dead_letter` row can become `acked`.
- The 32-bit cast of the attempts counter wraps at 2^32 - 1 attempts, after which the row is retried again.
- The cursor is written in a transaction of its own, after the events; a crash between the two costs only repeated
  insertions, which the event ids make harmless.
- A later pass recovers the thread of the first session record of a file, in whatever line it stands, as long as that line
  ends within the first 64 KiB. But no later pass reports the event that a cold pass reports for a session record, and a
  thread named in a longer first line is lost to later passes. So passes from every boundary add up with cold passes if
  and only if no session record stands behind the first line and no later event needs a thread lost in that way.
- The comment on the TOML scanner says the end includes the rest of the line; for an array the scan ends right behind the
  closing bracket, and a trailing comment is kept.
- The overflow branch of the chunk packer is never taken. Behind a skipped heading level, headings of the same level nest
  instead of replacing each other in the heading path.
- The count of unknown children passes over the nodes without a parent: a dangling child reference of a root is not counted.
- A repeated conversation whose children lists are ordered differently is refused as conflicting, although either
  occurrence alone lists the same sessions.
- The project-state budget does not report a project name it had to shorten.

## Model

| member | source | states |
|---|---|---|
| CivilDate.DaysOfCivil | bridge/src/normalize.rs:206-246 | the date computed for any integer day number is a valid Gregorian date, and converting it back gives the day number |
| CivilDate.CivilOfDays | bridge/src/normalize.rs:206-246 | converting any valid Gregorian date to its day number and back gives the date |
| CivilDate.CivilOfEpoch | bridge/src/normalize.rs:205-221 | day 0 is 1970-01-01 |
| CivilDate.CivilFollowsCalendar | bridge/src/normalize.rs:205-221 | the date of each following day number is the next day of the Gregorian calendar, leap years included |
| CivilDate.CivilOrder | bridge/src/normalize.rs:205-221 | dates are ordered exactly as their day numbers |
| CivilDate.DaysFromCivilIncreases | bridge/src/normalize.rs:237-246 | later valid dates have larger day numbers |
| Rfc3339.ParseOfFormat | bridge/src/normalize.rs:195-236 | a printed timestamp (section 5.6 of RFC 3339) reads back as its instant if and only if its year is -999 to 9999 |
| Rfc3339.FormatOrder | bridge/src/normalize.rs:195-203 | for years 0 to 9999 the strings compare as the instants do, in both directions |
| Rfc3339.FormatInjective | bridge/src/normalize.rs:195-203 | different instants of those years print differently |
| Rfc3339.FormatOrderReversed | bridge/src/normalize.rs:195-203 | for years -999 to -1 the strings of different years compare the other way round |
| Backoff.DelayRange | bridge/src/config.rs:258-276 | under the validated bounds every delay is between 1 and the configured maximum and fits 64 bits; for a base of 2 or more it is at least half the base and always below the base |
| Backoff.BaseDelayStep | bridge/src/config.rs:258-276 | the capped base never shrinks, at most doubles, and doubles exactly while the uncapped base stays within the maximum and the exponent below its limit |
| Backoff.GrowsWhileDoubling | bridge/src/config.rs:258-276 | while the base is at least 2 and doubles, the next attempt waits strictly longer for any two jitter seeds |
| Backoff.DelayGrows | bridge/src/config.rs:258-276 | that holds for all seeds if and only if the base is at least 2 and still doubles |
| Backoff.DelayAsSigned | bridge/src/drain.rs:168-180 | the cast of a delay to a signed number keeps it exactly below 2^63 and makes it negative from there on |
| Spool.Store.Enqueue | bridge/src/spool.rs:187-194 | one event is inserted as a fresh pending row, or nothing changes when its id is known; the outcome says which |
| Spool.Store.EnqueueMany | bridge/src/spool.rs:196-208 | all events of a batch are inserted in order in one step, with one outcome each |
| Spool.Store.ClaimBatch | bridge/src/spool.rs:210-265 | the oldest due rows become inflight with one more attempt; the batch describes them as they were before |
| Spool.Store.UpdateEach | bridge/src/spool.rs:268-331 | one unguarded update per listed id equals one update over all ids; the count is that of the listed ids that have a row |
| Spool.Store.Ack | bridge/src/spool.rs:268-286 | every listed id becomes acked whatever its status was |
| Spool.Store.Reschedule | bridge/src/spool.rs:288-307 | every listed id becomes pending with the retry time and error, whatever its status was |
| Spool.Store.Park | bridge/src/spool.rs:309-331 | every listed id becomes dead_letter with the error, whatever its status was |
| Spool.Store.ReclaimStaleInflight | bridge/src/spool.rs:333-344 | inflight rows whose lease start is at or before the cutoff become pending and no other row changes; the count is that of the stale rows, by which the pending ones increase |
| Spool.Store.PruneAcked | bridge/src/spool.rs:602-617 | acked rows whose timestamp string is below the cutoff string are deleted, the others kept in order; retention 0 deletes nothing |
| Spool.Store.EnforcePendingCap | bridge/src/spool.rs:619-643 | when more rows are pending than allowed, the oldest excess is parked; the count is the excess |
| Spool.Store.CursorGet | bridge/src/spool.rs:454-464 | a missing cursor reads as 0 |
| Spool.Store.CursorSet | bridge/src/spool.rs:466-476 | one cursor is written and no other changes |
| Spool.UpdateUnion | bridge/src/spool.rs:268-331 | running an update id by id, in any grouping, is one update over the union of the ids |
| Spool.InsertWellFormed | bridge/src/spool.rs:665-706 | an insertion keeps ids unique and serials increasing, adds exactly the one id and leaves earlier rows in place |
| Spool.InsertAllWellFormed | bridge/src/spool.rs:196-208 | a batch insertion keeps the same and adds exactly the batch ids |
| Spool.PruneElements | bridge/src/spool.rs:602-617 | pruning keeps exactly the rows that are not prunable |
| Spool.OldestFacts | bridge/src/spool.rs:218-226 | a limited selection in age order takes as many rows as the limit allows, each once, and leaves out none older than one taken |
| SpoolAge.ClaimTakesOldestDue | bridge/src/spool.rs:210-265 | a claim moves exactly the oldest due rows to inflight, as many as the limit allows, and leaves every other row alone |
| SpoolAge.BatchDescribesRows | bridge/src/spool.rs:230-262 | each batch entry names one due row with the attempts it had before, and no event is named twice |
| SpoolAge.CapBoundsPending | bridge/src/spool.rs:619-643 | after the cap the number of pending rows is the smaller of the former number and the cap, and no row is deleted |
| SpoolAge.CapParksOldest | bridge/src/spool.rs:619-643 | the cap parks pending rows only, none younger than a pending row it leaves, and changes no other row |
| SpoolAge.AgeIsClockOrder | bridge/src/spool.rs:218-226 | for rows stamped in years 0 to 9999 the string order used for claiming is clock order, with insertion order breaking ties |
| SpoolAge.InsertionOrderIsAge | bridge/src/spool.rs:187-226 | as long as the clock does not run back, in those years, the rows stand in the strict order of age that claims and the cap follow, whatever is inserted next |
| SpoolAge.PrunableByClock | bridge/src/spool.rs:602-617 | the string comparison of pruning is the comparison of the two instants |
| SpoolAge.PruneIsByClock | bridge/src/spool.rs:602-617 | pruning deletes exactly the acked rows inserted before the cutoff instant |
| Drain.SettleRejected | bridge/src/drain.rs:150-185 | the loop over refusals applies one transaction per refused id, parking permanent refusals and rescheduling the rest, counts them, and only counts a refusal without an id |
| Drain.ApplyOutcome | bridge/src/drain.rs:132-209 | an answer is applied as its list of transactions in order, and every counter of the report is advanced by what they did |
| Drain.MaximumDelay | bridge/src/drain.rs:232-238 | the retry delay is the longest delay of the listed ids, always computed for attempt 1 |
| Drain.SplitBatch | bridge/src/drain.rs:218-231 | a transport error splits the batch into ids to retry and ids to park, losing none |
| Drain.HandleTransportError | bridge/src/drain.rs:211-255 | a transport error applies its transactions in order and advances the counters by what they did |
| Drain.RetryLater | bridge/src/drain.rs:232-245 | the ids to retry are rescheduled together; nothing is parked by it |
| Drain.ParkNow | bridge/src/drain.rs:246-254 | the ids to park are parked together |
| DrainFacts.RowsAfter | bridge/src/drain.rs:132-255 | the table after a list of transactions, row by row |
| DrainFacts.OutcomeTouches | bridge/src/drain.rs:132-209 | exactly which ids an answer makes the drain write |
| DrainFacts.AnswerClosesBatch | bridge/src/drain.rs:132-209 | whatever ids an answer lists, a row of the batch stays inflight if and only if its id is empty and the answer refuses the batch as a whole without acknowledging the empty id |
| DrainFacts.ErrorTouches | bridge/src/drain.rs:211-255 | a transport error writes exactly the ids of the batch |
| DrainFacts.ErrorClosesBatch | bridge/src/drain.rs:211-255 | a transport error leaves no row of its batch inflight |
| DrainFacts.AnswerKeepsSettled | bridge/src/drain.rs:132-209 | while one answer is applied, a row that becomes acked or dead_letter stays so if and only if the answer does not contradict itself about that id |
| DrainPass.SettleBatch | bridge/src/drain.rs:85-127 | the reply to one batch is applied as its transactions, and every counter of the report advances by what they did |
| DrainPass.DrainOnce | bridge/src/drain.rs:53-130 | a pass does its upkeep and then at most the configured number of rounds, stopping when nothing is due or an error cannot be retried; table, batch count, counters and stop reason are those of the rounds |
| DrainPass.RunUpkeep | bridge/src/drain.rs:53-60 | reclaiming, pruning and the cap run in this order and report their counts; afterwards no more rows are pending than the cap allows |
| DrainPass.FailureCountsBatch | bridge/src/drain.rs:211-255 | a failed upload counts every event of its batch exactly once, as rescheduled or as parked |
| DrainPass.RoundIsRun | bridge/src/drain.rs:61-128 | every round is a run of the upload protocol by one drain, in which the gateway stores the ids of its answer just before it answers; the gateway then holds those ids and what it held before |
| DrainPass.RoundsAreRun | bridge/src/drain.rs:61-128 | the rounds of a pass, whatever the gateway stores during them, are such a run |
| DrainPass.UpkeepIsRun | bridge/src/drain.rs:53-60 | the upkeep of a pass is three protocol steps |
| DrainPass.PassIsRun | bridge/src/drain.rs:53-130 | a whole pass, upkeep and rounds, is a run of the protocol from any state in which the drain is idle, so everything proved of all runs holds of passes |
| ProtocolSafety.RunIsSafe | bridge/src/spool.rs:187-343 | in every interleaving the table stays well-formed, committed ids are in the table or at the gateway, acked rows are at the gateway, and pending acknowledgements only name such ids |
| ProtocolSafety.CapturedIsCommitted | bridge/src/spool.rs:187-208 | what a step captured stays in the record of committed ids |
| ProtocolSafety.NoSilentLoss | bridge/src/spool.rs:187-343 | in every interleaving of hooks, watchers, drains, lost answers and crashes, every captured id is at the end a spool row or held by the gateway, and every acked row is held by the gateway |
| ProtocolSafety.OnlyAckedDeleted | bridge/src/spool.rs:602-643 | a row disappears only in a pruning step and only once acked |
| ProtocolLease.RunIsLeased | bridge/src/spool.rs:210-343 | the lease invariant holds in every run whose drains finish within 120 seconds of claiming and whose answers name only ids of their batch, none both as stored and refused, and repeat only permanent refusals |
| ProtocolLease.NoEventHeldTwice | bridge/src/spool.rs:210-343 | in every such run no event is in the hands of two drains at once, and its row is inflight under its holder's own lease, or already parked and only to be parked again |
| ProtocolLease.SettledUnlessOverwritten | bridge/src/spool.rs:268-343 | in any state whatever, an acked or dead_letter row is in the table with its status after a step if and only if the step is neither a commit naming it with another target status nor a pruning that applies to it |
| ProtocolLease.SettledIsAbsorbing | bridge/src/spool.rs:268-343 | in every such run a step leaves the status of an acked or dead_letter row alone; only pruning removes an acked one |
| ProtocolLease.SettledStaysSettled | bridge/src/spool.rs:268-343 | over whole runs a dead_letter row stays dead_letter, and an acked row stays acked until it is pruned, never to return |
| ProtocolRetries.RetriesAreBounded | bridge/src/drain.rs:211-245 | in every interleaving transport errors send one row back at most max_attempts - 1 times, while its attempts counter plus one fits 32 bits |
| ProtocolRetries.ClaimsSeeNewAttempts | bridge/src/spool.rs:255-261 | no two claims of a row ever see the same attempts value |
| ProtocolRetries.WrappedRowRetried | bridge/src/drain.rs:218-245 | a failed upload of a row at 2^32 - 1 attempts puts it back to pending whatever the limit, because the cast wraps to 0 |
| ProtocolRetries.LoggedAreRescheduled | bridge/src/drain.rs:211-245 | the history of retries behind that bound is what the drain writes: a failed upload logs, in order, the claims whose ids its transactions reschedule, which are those of the batch it does not park |
| ProtocolLimits.LateDrainOverwritesAck | bridge/src/spool.rs:309-331 | a run in which a drain that outlived its lease turns an acked row into dead_letter: the updates have no status guard |
| ProtocolLimits.LeaseBoundIsExact | bridge/src/spool.rs:210-343 | settled rows stay settled in all runs whose drains finish within a given number of seconds if and only if that number is at most the 120 after which rows are taken back |
| ProtocolLimits.RefusedTwiceOverwrites | bridge/src/drain.rs:150-185 | that an answer contradicts itself about no id does not suffice: one that refuses an id for now and then for good lets another drain claim the row in between, and a dead_letter row becomes acked |
| ProtocolLimits.OnlyTheAnswerIsToBlame | bridge/src/drain.rs:150-185 | while the retry delay is shorter than the lease, every other step of that run is disciplined |
| Rollout.LastNewline | bridge/src/adapters/codex.rs:345-352 | the consumed length is that of the complete lines |
| Rollout.ParseRollout | bridge/src/adapters/codex.rs:328-461 | a pass yields the events of the complete lines from the offset on, with the thread recovered from the head, and the offset behind them |
| Rollout.HeadThreadRecovered | bridge/src/adapters/codex.rs:112-133 | a later pass recovers the thread from the file head if and only if the naming record ends within the 64 KiB scanned |
| Rollout.PassCompletesCold | bridge/src/adapters/codex.rs:328-461 | at every boundary of an anchored file one incremental pass adds exactly the events a cold pass over the longer file has beyond a cold pass over what was consumed |
| Rollout.AnchoredIsExact | bridge/src/adapters/codex.rs:328-461 | passes add up with cold passes at every boundary of a file if and only if no session record stands behind its first line, and the thread the first line names fits the head scan, is that of the file name, or is needed by no later event |
| Rollout.LateMetasLost | bridge/src/adapters/codex.rs:360-400 | for every file and boundary but the first, the cold pass has as many events more than the cold pass over the prefix and the incremental pass together as there are session records behind the boundary |
| Rollout.LateMetaLost | bridge/src/adapters/codex.rs:360-400 | for every file with a session record behind its first line the pass that begins at this record adds less than the cold pass gains |
| Rollout.LongNameLost | bridge/src/adapters/codex.rs:112-133 | for every other file that is not anchored the pass from behind the first line reports later events under another thread than the cold pass |
| Rollout.TwoLineFile | bridge/src/adapters/codex.rs:360-400 | a file of two lines, whatever the first is, whose second is a session record: a pass from the second line loses its event |
| Rollout.SecondLineRecovered | bridge/src/adapters/codex.rs:112-133 | a later pass does recover the thread of a session record in the second line, if it ends within the head scanned |
| Watcher.EnsureEventIds | bridge/src/watcher.rs:111-130 | every event without an id receives, in place, the one derived from its transcript name; the others are untouched |
| Watcher.RetainValid | bridge/src/watcher.rs:159-170 | only events that pass validation are kept, in order |
| Watcher.Tally | bridge/src/watcher.rs:177-186 | the inserted and duplicate counts add up to the outcomes |
| Watcher.WatchFile | bridge/src/watcher.rs:143-201 | one file turn enqueues the new events and then writes the cursor; other cursors are untouched and the count is that of the new rows |
| Watcher.WatchRunInv | bridge/src/watcher.rs:143-201 | the watcher invariant holds under every schedule of appends, passes and crashes over a file whose passes add up |
| Watcher.IncrementalEqualsBatch | bridge/src/watcher.rs:143-201 | on such a file, under every schedule, the watcher enters no id a cold pass would not, and exactly those once its cursor stands behind the last complete line |
| Watcher.SoundIsExact | bridge/src/watcher.rs:143-201 | every schedule over a growing file is right whenever it has caught up if and only if the ids of passes add up at every boundary and every moment of its growth |
| Watcher.AnchoredIsSound | bridge/src/watcher.rs:143-201 | they do on every anchored file |
| Watcher.LastPassCompletes | bridge/src/watcher.rs:143-201 | after any such run one undisturbed pass makes the entered ids equal to those of the cold pass |
| Watcher.FileTurnIsPass | bridge/src/watcher.rs:143-201 | a file's turn in the watch loop is an undisturbed pass: it moves the cursor alike and adds to the spool's ids what the pass adds to the entered ones |
| WatchCapture.TurnIsStep | bridge/src/watcher.rs:143-201 | what a file's turn does to the spool is one capture step of the upload protocol, which commits exactly the ids the pass enters |
| WatchCapture.WatchedIsNeverLost | bridge/src/watcher.rs:143-201 | whatever ran before and runs afterwards, every id a file's turn enters ends up in the spool or at the gateway |
| TomlEdit.RenderString | bridge/src/adapters/codex.rs:875-890 | the escaping loop prints the string literal |
| TomlEdit.ParseStringArray | bridge/src/adapters/codex.rs:906-938 | the character loop reads the strings of an array |
| TomlEdit.ParseOfLiteral | bridge/src/adapters/codex.rs:892-938 | printing any list of strings and reading it back gives the list |
| TomlEdit.ScanTomlValue | bridge/src/adapters/codex.rs:982-1023 | the scanning loop finds the end of a value |
| TomlEdit.ScanArray | bridge/src/adapters/codex.rs:982-1023 | scanning an array literal ends right behind it, whatever brackets, quotes or number signs its strings hold and whatever follows |
| TomlKeys.LocateRootKey | bridge/src/adapters/codex.rs:943-977 | the line loop finds the first assignment of the key before any table header |
| TomlKeys.InsertRootKey | bridge/src/adapters/codex.rs:1029-1061 | the insertion goes behind the root table's lines |
| TomlKeys.UpsertRootArray | bridge/src/adapters/codex.rs:1064-1075 | a present assignment is replaced, an absent one reported |
| TomlKeys.RemoveRootKey | bridge/src/adapters/codex.rs:1078-1093 | the assignment and its line feed are removed and triple line feeds thinned until none is left |
| TomlRoundTrip.ReadAfterInsert | bridge/src/adapters/codex.rs:901-1061 | where the key is absent, reading after an insertion gives the inserted list, at the insertion point |
| TomlRoundTrip.ReadAfterUpsert | bridge/src/adapters/codex.rs:901-1075 | where the key is present, reading after an upsert gives the written list, and the text on both sides of the replaced range is unchanged |
| TomlRoundTrip.LastUpsertWins | bridge/src/adapters/codex.rs:1064-1075 | a second upsert leaves exactly what it would have left without the first |
| TomlRoundTrip.UpsertReplacesInsert | bridge/src/adapters/codex.rs:1029-1075 | an upsert after an insertion leaves what inserting the second list leaves |
| TomlRoundTrip.RemoveUndoesInsert | bridge/src/adapters/codex.rs:1029-1093 | inserting and then removing a key preserves the sequence of non-empty lines |
| OAuth.Service.Register | src/research_memory_gateway/oauth.py:134-148 | a client is inserted unless the limit is reached |
| OAuth.Service.Update | src/research_memory_gateway/oauth.py:170-188 | name and status are checked and change together or not at all; disabling revokes every artifact of the client |
| OAuth.Service.Revoke | src/research_memory_gateway/oauth.py:190-197 | all artifacts of the client are revoked, and with deletion they and the client are gone |
| OAuth.Service.Begin | src/research_memory_gateway/oauth.py:214-241 | a request is stored after all checks, expired artifacts are deleted first, and an error changes nothing |
| OAuth.Service.Prepare | src/research_memory_gateway/oauth.py:247-259 | the browser secret is attached to an unused pending request of an active client |
| OAuth.Service.Login | src/research_memory_gateway/oauth.py:277-288 | each password attempt is counted, and refused after ten within the window |
| OAuth.Service.Complete | src/research_memory_gateway/oauth.py:291-300 | the request is used up and, when approved, a code is stored and the attempts are cleared |
| OAuth.Service.MintTokens | src/research_memory_gateway/oauth.py:325-339 | an access token and, if asked, a refresh token of the family are stored |
| OAuth.Service.Token | src/research_memory_gateway/oauth.py:341-384 | one exchange: errors change nothing, except that a presented consumed credential revokes its family and still fails |
| OAuth.Service.Verify | src/research_memory_gateway/oauth.py:386-399 | an access token verifies exactly when it is unrevoked, unexpired, for this resource and of an active client |
| OAuth.Service.RevokeByToken | src/research_memory_gateway/oauth.py:401-407 | revoking a token revokes its whole family if it belongs to the caller |
| OAuthSafety.StepInv | src/research_memory_gateway/oauth.py:199-407 | every transaction keeps the invariant, with the three transactions of a consent interleaved with all others |
| OAuthSafety.RunInv | src/research_memory_gateway/oauth.py:199-407 | the invariant holds in every reachable state |
| OAuthClaims.RefreshFamilies | src/research_memory_gateway/oauth.py:325-384 | in every reachable state the refresh tokens of a family share client and expiry, and at most one is unconsumed and unrevoked (section 4.14.2 of RFC 9700) |
| OAuthClaims.FailedStepCommitsNothing | src/research_memory_gateway/oauth.py:134-384 | whichever transaction of a run raises an error, it commits nothing, save that presenting a consumed credential revokes its family |
| OAuthClaims.ReuseEndsFamily | src/research_memory_gateway/oauth.py:358-384 | presenting an unexpired consumed code or refresh token again fails, and from then on, whatever follows, no token of the family is live and none is added (section 4.1.2 of RFC 6749) |
| OAuthClaims.RevocationEndsFamily | src/research_memory_gateway/oauth.py:401-407 | revoking one token ends its family in the same way |
| OAuthClaims.DisablingEndsFamilies | src/research_memory_gateway/oauth.py:170-188 | disabling a client ends every family it owns |
| OAuthClaims.DeadForever | src/research_memory_gateway/oauth.py:325-407 | no run revives an ended family or adds a token to it |
| OAuthClaims.DeadGrantsNothing | src/research_memory_gateway/oauth.py:341-399 | a token of an ended family neither verifies nor can be exchanged |
| OAuthClaims.TokenProvenance | src/research_memory_gateway/oauth.py:261-399 | every access token that verifies belongs to an active client and descends from one exchange whose verifier fits the challenge (section 4.6 of RFC 7636) of one approved, password-checked consent of that client |
| OAuthClaims.OneCodeOneFamily | src/research_memory_gateway/oauth.py:261-384 | over a whole run a request leads to at most one code and a code to at most one family |
| OAuthClaims.RequestIsSpent | src/research_memory_gateway/oauth.py:291-300 | a request that led to a code completes no second consent |
| OAuthClaims.CodeIsSpent | src/research_memory_gateway/oauth.py:357-378 | a code that started a family is redeemed by no second exchange |
| ConversationGraph.FromEntriesValid | src/research_memory_gateway/conversations/chatgpt_export.py:386-403 | the graph lists each object node of the mapping once |
| ConversationGraph.SortedIdsUnique | src/research_memory_gateway/conversations/chatgpt_export.py:478-484 | the sorted node ids depend on the nodes alone, not on the order of the mapping |
| ConversationGraph.WalkChain | src/research_memory_gateway/conversations/chatgpt_export.py:434-443 | walking one parent chain with a set of seen ids terminates, and reports a repetition exactly when the chain enters a cycle |
| ConversationGraph.DetectCycles | src/research_memory_gateway/conversations/chatgpt_export.py:430-445 | the loop over all nodes returns the sorted ids whose chain enters a cycle |
| ConversationGraph.CyclesAreExact | src/research_memory_gateway/conversations/chatgpt_export.py:430-445 | the result holds precisely the nodes whose parent chain enters a cycle, ascending, and is empty exactly for acyclic graphs |
| ConversationGraph.PathToLeaf | src/research_memory_gateway/conversations/chatgpt_export.py:457-467 | the upward walk and reversal yield the path |
| ConversationGraph.PathComplete | src/research_memory_gateway/conversations/chatgpt_export.py:447-467 | without cycles the path is the complete ancestry, from a node without a resolvable parent to the leaf, and repeats no node |
| ConversationGraph.AncestryUnique | src/research_memory_gateway/conversations/chatgpt_export.py:447-467 | a node has only one complete ancestry |
| ConversationGraph.LeafElements | src/research_memory_gateway/conversations/chatgpt_export.py:469-484 | the leaf ids are exactly the nodes without resolvable children, each once |
| ConversationGraph.CountDangling | src/research_memory_gateway/conversations/chatgpt_export.py:403-415 | the counting loop over the sorted nodes computes the orphan and unknown-child counts |
| ConversationGraph.DanglingCounts | src/research_memory_gateway/conversations/chatgpt_export.py:403-415 | the orphan count is the number of nodes whose parent does not exist; the count of unknown children leaves out those of the nodes without a parent and no others |
| ConversationGraph.Build | src/research_memory_gateway/conversations/chatgpt_export.py:386-428 | building fails exactly when it is to fail closed and some parent chain enters a cycle, and carries both counts |
| Branches.CollectVisible | src/research_memory_gateway/conversations/chatgpt_export.py:572-583 | the visible sequence holds role and text of the nodes that show text, in order |
| Branches.CollectCandidates | src/research_memory_gateway/conversations/chatgpt_export.py:604-616 | the candidates are the current node and then the other leaves that show text |
| Branches.MakePlans | src/research_memory_gateway/conversations/chatgpt_export.py:618-636 | one plan per candidate whose branch id is new |
| Branches.PlanBranches | src/research_memory_gateway/conversations/chatgpt_export.py:586-641 | planning fails on a cycle and otherwise returns the plans with one of them primary |
| Branches.OnePrimary | src/research_memory_gateway/conversations/chatgpt_export.py:618-641 | for every graph and current node the branch ids are distinct and exactly the first plan is primary |
| Branches.NoBranchDropped | src/research_memory_gateway/conversations/chatgpt_export.py:586-641 | in an acyclic mapping with named nodes whose listed children point back, every node that shows text lies on the path of a planned branch |
| Branches.LeafPlannedOnce | src/research_memory_gateway/conversations/chatgpt_export.py:607-641 | a terminal leaf whose path shows text gets exactly one plan, under its own id |
| Branches.PathStable | src/research_memory_gateway/conversations/chatgpt_export.py:457-467 | when a mapping is extended, a path stays the same if and only if the dangling parent of its first node, if any, stays dangling |
| Branches.SnapshotStable | src/research_memory_gateway/conversations/chatgpt_export.py:586-641 | and then id, path and snapshot of a branch with visible text whose end is still terminal are unchanged, whatever was added |
| Sessions.LoadConversations | src/research_memory_gateway/conversations/chatgpt_export.py:868-921 | merging is a function of the concatenated shards: how conversations are divided makes no difference |
| Sessions.MakeRefs | src/research_memory_gateway/conversations/chatgpt_export.py:938-976 | the references are those of the sorted conversations, in insertion order of their keys |
| Sessions.List | src/research_memory_gateway/conversations/chatgpt_export.py:978-987 | the listing loads, sorts and plans all conversations |
| SessionsOrder.PlansIgnoreOrder | src/research_memory_gateway/conversations/chatgpt_export.py:469-484 | neither the order of mapping entries nor that of children lists influences the plans |
| SessionsOrder.LoadsWhenConsistent | src/research_memory_gateway/conversations/chatgpt_export.py:868-921 | an export loads if and only if repeated conversations agree in content |
| SessionsOrder.SessionsIgnoreOrder | src/research_memory_gateway/conversations/chatgpt_export.py:853-987 | exports whose conversations contribute the same list the same sessions in the same order, however they are divided, repeated or internally ordered |
| SessionsOrder.SameConversationsSameSessions | src/research_memory_gateway/conversations/chatgpt_export.py:853-987 | exports holding the same conversations are both refused for contradicting repetitions, or list the same sessions |
| SessionsOrder.RepetitionRefused | src/research_memory_gateway/conversations/chatgpt_export.py:893-917 | two occurrences that contribute the same are each accepted alone, but together only if their contents are equal |
| SessionsOrder.ReorderedChildrenDiffer | src/research_memory_gateway/conversations/chatgpt_export.py:893-917 | a reordered children list is such a difference: the repetition is refused |
| Chunking.HardSplitPieces | src/research_memory_gateway/conversations/chunking.py:186-187 | the character split yields consecutive pieces of the limit |
| Chunking.SplitUnitPieces | src/research_memory_gateway/conversations/chunking.py:189-201 | a unit is split at lines if that helps, else behind sentence punctuation, else anywhere; the recursion terminates |
| Chunking.PackPieces | src/research_memory_gateway/conversations/chunking.py:203-220 | units are packed greedily, oversized ones split first |
| Chunking.SplitSection | src/research_memory_gateway/conversations/chunking.py:181-226 | the section is split at paragraph breaks, packed, and blank parts dropped |
| Chunking.AddPieceOk | src/research_memory_gateway/conversations/chunking.py:207-217 | packing keeps parts within the limit and unmergeable with their successor, loses no text, and never takes its overflow branch |
| Chunking.SplitUnitOk | src/research_memory_gateway/conversations/chunking.py:189-201 | splitting a unit loses nothing and leaves nothing longer than the limit |
| Chunking.SplitterMeetsLimit | src/research_memory_gateway/conversations/chunking.py:181-226 | for every text and limit of at least 1 no part exceeds the limit, the parts carry exactly the non-whitespace characters in order, and there are at most 2 * (length / (limit + 1)) + 1 |
| ChunkSections.FlushSection | src/research_memory_gateway/conversations/chunking.py:101-146 | a section is split, and its chunks inherit the pending anchors and those in its text; without text the anchors keep waiting |
| ChunkSections.ChunkText | src/research_memory_gateway/conversations/chunking.py:148-179 | the line loop divides a document at markers, anchors and headings |
| ChunkSections.NoBodyTextLost | src/research_memory_gateway/conversations/chunking.py:101-179 | over a whole document the chunks carry exactly the non-whitespace characters of the body lines in order, are numbered without gaps, and none is blank or exceeds the limit |
| ChunkSections.NoAnchorLost | src/research_memory_gateway/conversations/chunking.py:101-179 | the anchor of every anchor line is attached to a chunk or still waits for text at the end |
| ChunkSections.FlushAnchors | src/research_memory_gateway/conversations/chunking.py:101-146 | a section with text yields at least one chunk and all its chunks carry the same anchors |
| ChunkSections.SiblingReplaces | src/research_memory_gateway/conversations/chunking.py:164-175 | a second heading of a level replaces the first in the path if and only if the first did not skip a level; otherwise it is filed under it |
| Payload.EstimateTokens | src/research_memory_gateway/agent_surface/recall.py:434-438 | the estimate counts CJK characters singly and the others by threes, rounded up |
| Payload.ShrinkItemSmaller | src/research_memory_gateway/agent_surface/recall.py:408-431 | a shrinking step makes the item strictly smaller |
| Payload.CountersCost | src/research_memory_gateway/agent_surface/recall.py:342-351 | writing the final counters costs at most two tokens |
| Recall.ContextPayload.FitItems | src/research_memory_gateway/agent_surface/recall.py:329-335 | the result loop terminates and leaves the fitted results |
| Recall.ContextPayload.FitHeaderTexts | src/research_memory_gateway/agent_surface/recall.py:337-341 | the header loop terminates, and reports whether it cut |
| Recall.ContextPayload.Enforce | src/research_memory_gateway/agent_surface/recall.py:317-353 | both loops and the counters, as one update of the payload |
| Recall.ShrinkHeadersShortens | src/research_memory_gateway/agent_surface/recall.py:441-448 | the longest header is shortened, until all are at most 4 characters |
| Recall.RecallWithinBudget | src/research_memory_gateway/agent_surface/recall.py:317-353 | for every configurable budget the kept results are a prefix of the ranking, the counts are those kept and available, and the payload as returned is within the budget unless no result is left and every header is at most 4 characters |
| Recall.TruncationIsReported | src/research_memory_gateway/agent_surface/recall.py:342-352 | the truncation flag is set exactly when results, or headers, were cut |
| Recall.UncutIfItFits | src/research_memory_gateway/agent_surface/recall.py:317-353 | a payload comes back with all its results and headers if and only if it fits the budget less the reserve or has nothing to cut |
| Recall.AllDroppedOnlyWhenShort | src/research_memory_gateway/agent_surface/recall.py:329-335 | the last result is dropped only when even the first one of the ranking, with one claim at most and no text over 80 characters, exceeds the budget on its own |
| ProjectState.StatePayload.Shorten | src/research_memory_gateway/agent_surface/recall.py:375-393 | one turn shortens memories, then proposals, then actions, then the project name, and reports when nothing is left |
| ProjectState.StatePayload.Fit | src/research_memory_gateway/agent_surface/recall.py:375-393 | the loop terminates and leaves the fitted payload |
| ProjectState.StatePayload.Enforce | src/research_memory_gateway/agent_surface/recall.py:356-405 | the loop and the counters, as one update of the payload |
| ProjectState.StateWithinBudget | src/research_memory_gateway/agent_surface/recall.py:356-405 | every list keeps a prefix, the counts are those kept and available, and the payload as returned is within the budget unless all lists are empty and the project name is at most 4 characters |
| ProjectState.DropOrder | src/research_memory_gateway/agent_surface/recall.py:375-393 | a list is touched only when the ones before it are gone |
| ProjectState.ListCutsAreReported | src/research_memory_gateway/agent_surface/recall.py:395-404 | the truncation flag is set exactly when a list was cut; a shortened project name alone is not reported |

## Left out

- SQLite, files, processes, HTTP, the asynchronous runtime and SSH: a transaction is one atomic step and the network is a
  choice of outcomes. The row id is modelled as a serial number that is never reused.
- `verify_access_token` and `revoke_token` are atomic in the model although the program does not open them with
  `BEGIN IMMEDIATE`. `authenticate_client` is a parameter: an exchange takes whatever client snapshot was authenticated.
- OAuth.Service.Register: takes metadata and redirect URIs that have been validated already.
- Listing of clients, and the pages and endpoints around the store.
- SHA-256, NFC, PKCE's S256, JSON parsing and random tokens are parameters; distinctness of draws is a condition of the
  steps. A transcript line is an abstract record, and an event id an abstract function of the event's identity.
- CivilDate and Rfc3339 use unbounded integers; instants beyond the 64-bit range of day arithmetic are not singled out.
- DrainPass.DrainOnce: the text of the last error, session reconciliation at the end of a pass and the daemon's sleeping
  are not modelled.
- Drain.ApplyOutcome: a failing transaction inside a handler, which the program logs and skips, appears in the protocol
  as a step of its own and not in this method.
- The sessions and meta tables of the spool, and its counters and samples.
- Watcher.WatchFile: one transcript file; the loop over discovered files repeats it, and a read, insertion or cursor error,
  which skips the rest of a file's turn, appears in the schedules as an abandoned pass and not in this method.
- Watcher.RetainValid: of the checks of an event (bridge/src/event.rs:266-283) the length of the id is modelled; those of
  source system, type, role and metadata are one parameter, a predicate on the captured event.
- Claude Code transcripts: their per-pass set of seen ids makes incremental and cold passes differ by design.
- Redaction, capture and classification by regular expressions.
- Content extraction from messages, and the parsing of a branch into a transcript: a message's text and the part of it a
  snapshot keeps are fields. A snapshot is the value that is serialised, not its bytes and hash.
- Sessions.LoadConversations: shards arrive parsed; JSON errors, shards that are no list and the warnings collected on the
  way are not modelled.
- Sessions.List: create times that are not numbers count as absent in the order of sessions, and NaN is excluded.
- ChunkSections.ChunkText: lines arrive already recognised as marker, anchor, heading or body, and the front matter, the
  hashes and the identifiers of a chunk are not modelled.
- TomlEdit: text is a sequence of characters, so the byte offsets of UTF-8 and the treatment of single bytes as characters
  do not appear; a key is one that can start a line (`TomlRoundTrip.KeyOk`), as every key the program uses can.
- Recall: `recall_memory` and `get_project_state` around the budgets, ranking, and query rewriting. Fields the budgets
  never change appear as the text they are serialised to.
- Embedding and rerank clients, the media index, exporters, web pages, tool registration, and command-line output.
