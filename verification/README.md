# Verified model of the WhatsApp gateway's stateful cores

The gateway runs one WhatsApp bridge process per tenant, relays messages to Chatwoot and to
webhooks, and guards its API with an in-memory rate limiter. This project models the parts of it
that keep state over time and proves what that state means. External answers (subprocess, HTTP,
SQL errors) are parameters of each step, and time is passed in and never runs backwards.

| file | part of the gateway |
|---|---|
| `Windows.dfy` | sliding windows: pruned lists against the lists of everything that happened |
| `RateLimit.dfy`, `Auth.dfy`, `LimiterRuns.dfy`, `LimiterHistory.dfy` | the request limiter, the authentication doors around it, whole runs of both, and every reply from the history alone |
| `RestartLog.dfy`, `Supervisor.dfy`, `SupervisorTheorems.dfy` | the restart log, and restarts, health checks and logouts as interleaved tasks |
| `TtlCache.dfy`, `ConversationLock.dfy`, `ClientCache.dfy` | Chatwoot caches and the per-chat lock |
| `Markdown.dfy` | the two markdown translators |
| `Rpc.dfy` | JSON-RPC 2.0 call/response correlation |
| `Messages.dfy`, `History.dfy` | the message table, its contact index, the bounded store and the history sync |
| `Registry.dfy`, `Overlaps.dfy`, `Tenants.dfy` | the write-through tenant registry: one operation at a time, operations that overlap, and its objects |
| `Sync.dfy`, `SyncService.dfy` | the batch sync to Chatwoot: its meaning, and its loops |
| `Webhooks.dfy` | webhook delivery with retries |
| `Wrappers.dfy`, `Requests.dfy` | optional values, dictionary lookups, and what can come of a request |

Tasks interleave only where the program awaits; taking a free asyncio lock does not suspend. Where
the program updates objects in place there is a class whose methods are proved against functions
of the old state, and the theorems are about those functions and their runs. Ghost state (complete
logs, counters of lost events) is never read by the modelled code.

A request to the database or to Chatwoot has three outcomes: it is done, it is refused, or it takes
effect although its caller gets an exception.

Five promises hold only under a condition, and each condition is proved exact:

* The markdown translators undo each other unless plain text spells the name of a sentinel exactly
  between two spans of the style it masks: the neighbouring NULs then read as a third sentinel.
* However saves overlap, and if nothing else writes the two tables, once all have ended the contact
  index matches the message table unless a row lost its contact update to an exception, or a contact's
  last update was that of an older message that says something else than the youngest: the upserts of
  two saves may run the other way round than their inserts, and then nothing raises at all. Counts are
  exact even so; a lost update is missing from its contact's count for good, and its message is reported
  as a duplicate.
* Memory and tenant row agree, for operations one after the other, unless an update carries an empty
  identity string, an empty connection state or an empty settings dictionary, a refused update would
  have changed something, a deletion of the row is refused, or a new row is filed unseen. For other
  operations that overlap they agree once all have ended, unless such a row was left behind, or the
  column's last update is not what the row holds because its statement was refused, or because the last
  statement to land is that of an earlier update: credentials whose write is retried past a logout
  survive it. The object changes first, and nothing is undone when its statement is refused.
* Over sync runs one after the other Chatwoot accepts each stored message at most once, and the
  accepted ones are the marked ones,
  unless a post that Chatwoot accepted raised (a late answer) or the mark of an accepted message was
  refused; such a message is posted again by the next run.
* The restarts of a tenant keep their cooldown unless one is requested in the rest of a cooldown that
  was cut short by cancelling its task.

Reading the limiter's statistics is not free of effects: asking about one address expires its block.
No reply of the middleware or the authentication doors depends on it; the raw failure counter does
(`StatsChangeRawCount`).

## Model

| member | source | states |
|---|---|---|
| `Windows.PruneDeque` | src/middleware/ratelimit.py:38-43 | the popping loop drops exactly the prefix that is not later than the cutoff |
| `Windows.TailCounts` | src/middleware/ratelimit.py:175-189 | the length of a pruned deque is the number of all past events inside the window |
| `Windows.AfterIsSuffix` | src/tenant/__init__.py:467 | on a chronological list the filtering comprehension drops a prefix, as popping would |
| `Windows.RecordKeepsBudget` | src/middleware/ratelimit.py:182-197 | if a check found room in the window, recording now leaves every window of that width within its limit |
| `Windows.CountIsSize` | src/middleware/ratelimit.py:179-189 | the count is the number of instants that lie in the half-open window |
| `RateLimit.LockoutBound` | src/middleware/ratelimit.py:106-118 | an address without a block entry has fewer failures on its deque than the maximum |
| `RateLimit.BlockTable` | src/middleware/ratelimit.py:45-54 | the block table holds exactly the blocks nobody has lifted or seen lapse |
| `RateLimit.NothingCountedAnywhere` | src/middleware/ratelimit.py:205-218 | addresses that the sweep forgot have nothing in either window |
| `RateLimit.RateLimiter.IsBlocked` | src/middleware/ratelimit.py:45-54 | true iff the unpruned record has a block that has not run out; a lapsed block goes together with its failures |
| `RateLimit.RateLimiter.BlockIp` | src/middleware/ratelimit.py:56-61 | sets the block of one address and keeps the tables a view of the records |
| `RateLimit.RateLimiter.UnblockIp` | src/middleware/ratelimit.py:83-89 | true iff there was a block entry; lifts it and forgives the failures |
| `RateLimit.RateLimiter.RecordFailedAuth` | src/middleware/ratelimit.py:106-133 | reports the failures in the window counted over the unpruned record, and blocks iff they reach the maximum |
| `RateLimit.RateLimiter.ClearFailedAuth` | src/middleware/ratelimit.py:135-141 | wipes the failures of one address or of all, and nothing else |
| `RateLimit.RateLimiter.CleanupOldIps` | src/middleware/ratelimit.py:205-218 | the sweep leaves every record, hence every later answer, as it was |
| `RateLimit.RateLimiter.CheckRateLimit` | src/middleware/ratelimit.py:171-203 | the verdict is the one counted over every admission ever made, whatever pruning and sweeping dropped; only an admission raises the request counter, and every hundredth sweeps |
| `RateLimit.RateLimiter.GetStatsFor` | src/middleware/ratelimit.py:223-248 | the counts are those of the unpruned record; the only effect is expiring the block of that address |
| `RateLimit.RateLimiter.GetStats` | src/middleware/ratelimit.py:250-265 | the three totals count over the unpruned records; no record changes |
| `RateLimit.RateLimiter.GetBlockedIps` | src/middleware/ratelimit.py:91-104 | lists exactly the addresses whose block has not run out, with the remaining time |
| `RateLimit.RateLimiter.GetFailedFor` | src/middleware/ratelimit.py:143-159 | the failures of one address in the window, and whether it is blocked |
| `RateLimit.RateLimiter.GetFailed` | src/middleware/ratelimit.py:161-169 | lists exactly the addresses with failures in the window, with their number; no record changes |
| `Auth.Penalise` | src/api/auth.py:29-48 | the doors reach the failure counter only without a block entry, so the count never exceeds the maximum, and no other address's failures change |
| `Auth.GetTenant` | src/api/auth.py:11-51 | refuses blocked addresses, counts a missing or unknown key as a failure, clears the failures on success; no address ends with more failures than it had or than the maximum |
| `Auth.GetAdminKey` | src/api/auth.py:54-98 | refuses blocked addresses, counts a missing or wrong admin key as a failure, clears the failures on success; an unconfigured admin key, and a key with a character beyond ASCII, which the comparison rejects with an error, are refused without a penalty; no address ends with more failures than it had or than the maximum |
| `Auth.KeyFromHeaders` | src/api/auth.py:24-34 | a non-empty X-API-Key header wins, else a non-empty rest behind "Bearer " is the key, else there is none |
| `LimiterRuns.Dispatch` | src/middleware/ratelimit.py:273-303 | the middleware's verdict is that of one judgement on the unpruned record |
| `LimiterRuns.Drive` | src/middleware/ratelimit.py:38-265 | any chronological run of the limiter gives, reply by reply, those of a bookkeeper that never drops an admission and for which queries do nothing, and keeps the failures of every address within the maximum throughout |
| `LimiterRuns.Replay` | src/middleware/ratelimit.py:38-265 | the same replies from a limiter of its own |
| `LimiterRuns.BookIsComplete` | src/middleware/ratelimit.py:196-197 | the bookkeeper's list of an address is exactly the instants at which a run let it through |
| `LimiterRuns.AdmissionBudget` | src/middleware/ratelimit.py:175-197 | over any run no window of a minute or an hour admits more than its limit from one address |
| `LimiterRuns.QueriesAreInvisible` | src/middleware/ratelimit.py:91-104 | the bookkeeper's other replies are those of the run without its queries |
| `LimiterRuns.ReplayWithoutQueries` | src/middleware/ratelimit.py:223-265 | two limiters, one of them never asked for statistics, blocks or failures, give the same replies to everything else |
| `LimiterRuns.StatsChangeRawCount` | src/middleware/ratelimit.py:106-133 | asking for statistics changes the raw failure count iff a block has run out unnoticed while a failure is in the window |
| `LimiterHistory.RepliesAreExact` | src/middleware/ratelimit.py:171-203 | in every chronological run each reply follows from the earlier operations and replies: refused iff the last block is in force, over a limit iff the earlier admissions fill its window, and failures counted since the last success, pardon or block |
| `LimiterHistory.RefusalBlocks` | src/middleware/ratelimit.py:182-194 | after a reply over a limit, or that the address is now blocked, every request from it is refused for the length of the block, unless it is unblocked |
| `LimiterHistory.RefusedForAReason` | src/middleware/ratelimit.py:45-54 | behind every refusal there is a step that blocked the address, no longer ago than the block lasts, and not undone since |
| `LimiterHistory.EnoughFailuresBlock` | src/middleware/ratelimit.py:106-133 | as many failed calls of an address in the window as the maximum, with no success, pardon or block between, and every later request is refused for the length of the block |
| `RestartLog.FilterTracks` | src/tenant/__init__.py:466-470 | filtering leaves exactly the restarts the window counts on the complete log |
| `RestartLog.CleanupIsInvisible` | src/tenant/__init__.py:433-453 | the hourly sweep keeps every registered tenant's list standing in for its complete log |
| `RestartLog.SweepIsExact` | src/tenant/__init__.py:433-453 | once an hour has passed the sweep leaves exactly the recent restarts of registered tenants, before that everything |
| `RestartLog.CheckIsExact` | src/tenant/__init__.py:458-477 | after a check the list length is the window count on the complete log |
| `RestartLog.RestartManager.Sweep` | src/tenant/__init__.py:443-451 | the in-place loop deletes unregistered and emptied entries and filters the rest |
| `RestartLog.RestartManager.CleanupRestartHistory` | src/tenant/__init__.py:433-453 | sweeps iff an hour has passed since the last sweep |
| `RestartLog.RestartManager.CanRestart` | src/tenant/__init__.py:458-477 | for a registered tenant the answer is the one the complete log would give |
| `RestartLog.RestartManager.RecordRestart` | src/tenant/__init__.py:479-489 | appends to the log and to the tenant's counters, and stays faithful to the complete log |
| `RestartLog.RestartManager.RecordCheck` | src/main.py:207-258 | a check clears, keeps or raises the tenant's counter, and marks it offline iff it failed or timed out and the raised counter has reached the maximum |
| `Supervisor.AlwaysExclusive` | src/main.py:82-156 | at every suspension point of every interleaving a tenant's lock is held iff its flag is set, by exactly the one restart in its body, and nobody queues |
| `Supervisor.OneRestartInFlight` | src/main.py:104-156 | two restart bodies of one tenant are never in flight together |
| `Supervisor.RecordFollowsItsCheck` | src/main.py:97-113 | a log only grows in the very step that checked the permission, so no other record falls between check and record |
| `Supervisor.PermissionIsExact` | src/main.py:97-102 | a registered tenant's permission is decided as on its complete log, in every reachable state |
| `Supervisor.RestartBudget` | src/main.py:97-113 | over every run, no window holds more than the maximum number of restarts of a registered tenant |
| `SupervisorTheorems.RestartSpacing` | src/main.py:112-122 | in every run the restarts of a tenant are at least the cooldown apart iff none was started in the rest of a cooldown that a cancellation cut short |
| `SupervisorTheorems.RequestIsExact` | src/main.py:82-113 | in every run a request for a registered tenant starts a restart iff restarts are on, none is in progress, it has credentials and fewer than the maximum of all its restarts lie in the window; otherwise it is refused |
| `SupervisorTheorems.CutShortBreaksSpacing` | src/main.py:155-156 | in every reachable state whose latest restart was cut short, a restart allowed before its cooldown would have ended breaks the spacing |
| `SupervisorTheorems.CancellationBreaksSpacing` | src/main.py:155-156 | such states exist: a run with two restarts at one instant |
| `SupervisorTheorems.AlwaysCounted` | src/main.py:201-250 | the health counter is the number of failed checks since the last success or successful restart |
| `SupervisorTheorems.OfflineNeedsStreak` | src/main.py:231-258 | a tenant is marked offline only with the maximum number of failed checks in a row behind it |
| `SupervisorTheorems.HealthResultIsExact` | src/main.py:207-258 | in every run a failed or timed out check marks the tenant offline iff its streak has reached the maximum; a passed one ends the streak, an error changes nothing |
| `SupervisorTheorems.StreakIsRun` | src/tenant/__init__.py:419-431 | the streak is the longest run of failed checks at the end of the history |
| `SupervisorTheorems.StandingIsExplained` | src/main.py:143-156 | the connection state changes only by session updates, by a crash whose restart ends without success, and by an offline mark; credentials only by authentication and logout; a restart is noted exactly when one succeeds |
| `SupervisorTheorems.OnlyDeletionUnregisters` | src/tenant/__init__.py:297-304 | in every interleaving a tenant is registered from its registration to its deletion |
| `SupervisorTheorems.LoggedOutStaysDown` | src/main.py:90-95 | no run restarts a logged-out tenant until it is authenticated again |
| `SupervisorTheorems.LogoutIsFinal` | src/main.py:535-541 | once both logout tasks have run, in either order and with anything in between, every restart request is refused and the logs stay as they are until the tenant is authenticated again |
| `TtlCache.EvictedIsStale` | src/chatwoot/integration.py:47-50 | when a full cache takes a new key, as many other keys as it holds were used since the evicted one |
| `TtlCache.StillCached` | src/chatwoot/integration.py:33-52 | a fresh value with fewer than max_size other keys used since is always still there, with the latest value |
| `TtlCache.AfterSet` | src/chatwoot/integration.py:43-52 | a write keeps equal key sets, the size bound, recency order and the account of every missing key |
| `TtlCache.AfterHit` | src/chatwoot/integration.py:39-40 | a hit refreshes recency and keeps the invariant |
| `TtlCache.AfterExpiry` | src/chatwoot/integration.py:35-38 | dropping an expired key keeps the invariant |
| `TtlCache.TTLLRUCache.Get` | src/chatwoot/integration.py:33-41 | a hit is the latest value written no more than the ttl ago; a miss means there is none, it is too old, or max_size others were used since |
| `TtlCache.TTLLRUCache.Set` | src/chatwoot/integration.py:43-52 | stores the value, evicting the least recently used key iff the cache is full and the key is new |
| `TtlCache.TTLLRUCache.Clear` | src/chatwoot/integration.py:54-56 | empties both maps |
| `ConversationLock.ClientCallsBounded` | src/chatwoot/integration.py:770-801 | in every interleaving, successful client calls for a contact number at most (locks its tasks went through) times (1 + losses of its cache entry) plus the lock timeouts that found nothing cached |
| `ConversationLock.AlwaysWellSent` | src/chatwoot/integration.py:776-798 | in every run a task is in the client, or back from it, only after its own look found nothing cached when it got the lock or timed out; otherwise it got what it found |
| `ConversationLock.OneLockBound` | src/chatwoot/integration.py:101-106 | for a contact served through one chat, with the lock table not cleared in between: at most 1 plus the timeouts that found nothing cached plus losses |
| `ConversationLock.OneConversation` | src/chatwoot/integration.py:785-798 | through one lock, without losses and without a timeout that found nothing cached, everybody gets the same conversation |
| `ConversationLock.NoLockIsLeaked` | src/chatwoot/integration.py:799-801 | once none of its tasks is inside the client a lock is free, even one the cleared table has forgotten |
| `ConversationLock.TwoChatsCallTwice` | src/chatwoot/integration.py:773-774 | the single-chat condition is needed: two chats of one contact call twice with neither timeout nor loss |
| `ClientCache.EarlierAsked` | src/chatwoot/client.py:386-390 | an uncleared request for a contact is never younger than the contact's latest entry |
| `ClientCache.SpacedGrows` | src/chatwoot/client.py:374-390 | asking Chatwoot after an entry has run out keeps requests for a contact at least the ttl apart |
| `ClientCache.ReuseReopenOrCreate` | src/chatwoot/client.py:360-372 | a conversation is given iff it was found open, or found closed and reopened, or created because none was found or reuse is off |
| `ClientCache.ChatwootClient.GetCached` | src/chatwoot/client.py:374-384 | returns the contact's last conversation iff it was filed less than the ttl ago |
| `ClientCache.ChatwootClient.GetOrCreateConversation` | src/chatwoot/client.py:351-372 | a live entry answers without a request; otherwise reuse, reopen or create, and only a success is filed; uncleared requests for a contact stay the ttl apart |
| `ClientCache.ChatwootClient.ClearCache` | src/chatwoot/client.py:392-394 | empties the cache; earlier requests no longer bind later ones |
| `Markdown.BodyIsTheMatch` | src/chatwoot/integration.py:424-427 | the scanner finds a match of the pattern iff there is one, and there is never a second to choose from |
| `Markdown.SubKeeps` | src/chatwoot/webhook_handler.py:203-204 | whatever a substitution does, its text without the marks on either side stays the same, in order |
| `Markdown.PassOver` | src/chatwoot/integration.py:424-427 | one substitution rewrites exactly the spans of its style in a flat document |
| `Markdown.OpensSentinel` | src/chatwoot/integration.py:428-430 | the NUL closing a masked span starts a sentinel iff plain text spells its name before the next masked span |
| `Markdown.UnmaskSpans` | src/chatwoot/integration.py:428-430 | the two sentinel replacements give single asterisks, or leave a NUL behind in exactly that case |
| `Markdown.WhatsAppToChatwoot` | src/chatwoot/integration.py:416-431 | every flat document's WhatsApp text converts to its Chatwoot text iff no two italics are separated by the sentinel's name |
| `Markdown.ChatwootToWhatsApp` | src/chatwoot/webhook_handler.py:194-206 | every flat document's Chatwoot text converts to its WhatsApp text iff no two bold spans are separated by the sentinel's name |
| `Markdown.RoundTrip` | src/chatwoot/webhook_handler.py:194-206 | both round trips hold for exactly the flat documents with neither separation |
| `Markdown.EachStyle` | src/chatwoot/integration.py:424-427 | each style with its literal marks, in both directions, for every marker-free text |
| `Markdown.DoubledMarksPass` | src/chatwoot/integration.py:425-427 | text between doubled marks passes to Chatwoot unchanged |
| `Markdown.LopsidedPasses` | src/chatwoot/webhook_handler.py:198-199 | two asterisks before and one after are left alone |
| `Markdown.SentinelsCollide` | src/chatwoot/webhook_handler.py:195-202 | concrete documents on which each translator fails |
| `Markdown.NestingIsTurnedInsideOut` | src/chatwoot/integration.py:424-431 | italic inside bold comes back as bold inside italic, for every inner text |
| `Rpc.AlwaysConsistent` | src/bridge/client.py:190-213 | every interleaving keeps table, futures and calls in step |
| `Rpc.IdsAreFresh` | src/bridge/client.py:194-199 | a new call never gets an id that was used before |
| `Rpc.OutcomeIsFinal` | src/bridge/client.py:205-213 | a call completes at most once |
| `Rpc.ReturnsOwnReply` | src/bridge/client.py:139-149 | a call returns a value only if a response with its own id, sent after it was made, carries that result and no error, and is refused only if one carries that error text |
| `Rpc.ResponseReachesItsCall` | src/bridge/client.py:138-151 | a response to an open call resumes it with its error text if it carries an error object with members, otherwise with its result, and touches no other call |
| `Rpc.InterruptedByStop` | src/bridge/client.py:72-84 | a call is interrupted only by stopping the running bridge while the call is in the table |
| `Rpc.StopInterrupts` | src/bridge/client.py:72-84 | stopping a running bridge interrupts every call of the table that waits for its answer |
| `Rpc.OutcomeTellsTheEnd` | src/bridge/client.py:196-215 | in every run a call that timed out, was cancelled or failed to write was ended by that very event |
| `Rpc.EntriesLeave` | src/bridge/client.py:82-212 | an entry leaves the table exactly by a response of its own, by its timeout, or by stopping a running bridge |
| `Rpc.StrayReplyIsIgnored` | src/bridge/client.py:140-141 | late, unknown and null-id responses change nothing |
| `Rpc.DuplicateIsStray` | src/bridge/client.py:140-149 | the second copy of a response changes nothing |
| `Rpc.StopSettlesEverything` | src/bridge/client.py:78-83 | stopping a running bridge leaves no open future and an empty table |
| `Rpc.StopEmptiesTheTable` | src/bridge/client.py:72-83 | the table is empty after a stop iff the bridge was running or it was empty already |
| `Rpc.CallAfterStopSurvives` | src/bridge/client.py:191-199 | a call made after a stop stays registered through the next stop |
| `Rpc.TableHoldsOnlyWaiting` | src/bridge/client.py:209-210 | entries linger only for calls in flight, cancelled by their caller, or whose write failed |
| `Rpc.BaileysBridge.BeginCall` | src/bridge/client.py:190-203 | registers a fresh id before the first await, or refuses when never started |
| `Rpc.BaileysBridge.HandleLine` | src/bridge/client.py:133-149 | one line does what the transition system's step does |
| `Rpc.BaileysBridge.ReadLoop` | src/bridge/client.py:114-162 | any number of lines do what that many steps of the transition system do |
| `Rpc.BaileysBridge.StopPrefix` | src/bridge/client.py:72-83 | cancels every pending future in place and empties the table |
| `Messages.DevicesShareAContact` | src/utils/phone.py:5-38 | every device and server suffix of a number is filed under the same contact |
| `Messages.DigitsStay` | src/utils/phone.py:5-20 | of any text exactly the digits stay, in order |
| `Messages.NumbersDoNotMix` | src/utils/phone.py:5-41 | a plain number is filed under itself, whatever device and server it came from, so different numbers never share a contact |
| `Messages.WhoNamesAContact` | src/store/database.py:1137-1142 | a group is named after its chat whoever writes; a direct chat after its sender without outer spaces, whenever anything is left |
| `Messages.Database.UpsertContact` | src/store/database.py:1410-1446 | counts one more message and keeps the name unless a non-empty one is given |
| `Messages.Database.SaveMessage` | src/store/database.py:1051-1151 | inserts iff the key is new, then updates the contact if the chat has a phone; each statement may be refused, or raise after taking effect |
| `Messages.SaveIsExact` | src/store/database.py:1076-1151 | a save adds the message as it is unless its id is stored or the insert is refused, counts it for its contact unless something raised or there is none, and reports the id of the row it added |
| `Messages.SaveIsTwoSteps` | src/store/database.py:1074-1151 | a save that nothing interrupts is its insert step followed by its upsert step |
| `Messages.InsertKeepsSound` | src/store/database.py:1074-1101 | an insert step keeps keys unique and every row of a contact upserted, waiting or lost |
| `Messages.UpsertKeepsSound` | src/store/database.py:1426-1446 | an upsert step keeps the index exact on the rows whose upsert ran, in the order they ran |
| `Messages.AlwaysSound` | src/store/database.py:1051-1151 | in every interleaving: unique keys, counts exact on the rows whose upsert ran, and each contact's name, chat and kind those of the last such upsert |
| `Messages.IndexAgrees` | src/store/database.py:1074-1151 | after every interleaving, once nothing is under way, the index agrees with the whole table iff no row lost its upsert and no contact's youngest message was overtaken by an older one that says something else |
| `Messages.InTurnOvertakesNothing` | src/store/database.py:1143-1149 | upserts that run in the order of their inserts overtake nothing |
| `Messages.OverlappingSavesDisagree` | src/main.py:766-769 | two saves of one contact whose upserts cross leave the index wrong although nothing raised |
| `Messages.LostIsMissed` | src/store/database.py:1143-1149 | a state with a lost upsert has an index that disagrees with the table |
| `Messages.LostForGood` | src/store/database.py:1143-1149 | once an upsert is lost the index disagrees with the table in every later state, whatever runs |
| `Messages.ReplayChangesNothing` | src/store/database.py:1076-1132 | saving a stored message again changes neither table, whatever raises |
| `History.BoundedTwice` | src/store/messages.py:87 | dropping from a bounded store as one goes is the same as dropping at the end |
| `History.EntryColumns` | src/utils/history.py:36-59 | the message made of an entry has its columns, those of its chat, and the direction it tells |
| `History.MessageStore.Add` | src/store/messages.py:89-90 | the store holds the last max_messages messages in order |
| `History.MessageStore.AddWithPersist` | src/store/messages.py:92-125 | appends, saves if persistence is configured, and reports the new row's id; a database failure is swallowed |
| `History.StoreEntry` | src/utils/history.py:33-76 | one entry: skipped without id, an error if malformed, otherwise stored or a duplicate |
| `History.StoreChatMessages` | src/utils/history.py:27-78 | the nested loops are the fold over all entries, on tables, counts and the bounded store |
| `History.NothingIsMiscounted` | src/utils/history.py:28-78 | stored and duplicates add up to the messages with an id, errors to the malformed ones; nothing counts as stored without persistence |
| `History.StoredIsGrowth` | src/utils/history.py:63-66 | the table grows by the stored count plus the rows whose save raised after its insert |
| `History.StoredIsNewRows` | src/utils/history.py:63-66 | the stored count is the number of new rows iff every save that raised left the message table alone |
| `History.SyncedRows` | src/utils/history.py:48-66 | every row a sync adds is the tenant's and holds a message offered to it; earlier rows stay |
| `History.SyncIsSteps` | src/utils/history.py:27-78 | a sync that nothing interrupts is a run of insert and upsert steps in turn |
| `History.SyncedIndexAgrees` | src/store/messages.py:99-125 | after a sync into a settled table the index agrees with it iff no row lost its upsert |
| `History.SyncStores` | src/utils/history.py:61-66 | if no insert raises, afterwards every message with an id is in the table |
| `History.NothingNew` | src/utils/history.py:61-66 | syncing messages that are all present stores nothing and changes no table, whatever raises |
| `History.RepeatedSync` | src/utils/history.py:27-78 | a repeated sync stores nothing new and reports every message as a duplicate |
| `Registry.UpdateAgrees` | src/tenant/__init__.py:331-364 | one update whose statement takes effect keeps object and row in agreement iff it passes the caller's emptiness check |
| `Registry.ApplyAgrees` | src/tenant/__init__.py:239-310 | one operation on the whole registry, whether its statement is done, refused or done unseen, keeps memory and table in agreement iff it is safe: an effective update passes the emptiness check, a refused one changes nothing, no deletion is refused, no creation unseen |
| `Registry.WriteThrough` | src/tenant/__init__.py:196-394 | for operations one after the other, memory and table agree after every one of them iff every one was safe where it was made |
| `Registry.RestartsAreInvisible` | src/tenant/__init__.py:89-129 | after safe operations a run with any number of restarts from the table ends where the run without them does |
| `Registry.DeletedStaysGone` | src/tenant/__init__.py:297-310 | a deleted tenant is in neither memory nor table until one is created with its key, whatever else happens |
| `Registry.RefusedDeletionReturns` | src/tenant/__init__.py:297-310 | a deletion whose statement is refused is undone by the next restart |
| `Registry.CreatedIsBlank` | src/tenant/__init__.py:239-268 | a new tenant has no credentials, session, webhooks or settings, and survives a restart |
| `Registry.SettingsMerge` | src/tenant/__init__.py:389-391 | a settings update replaces the keys it names and keeps every other |
| `Registry.FilingKeepsSession` | src/store/database.py:524-532 | filing an existing tenant again keeps the session, credentials and settings of its row |
| `Registry.RemovesTheFirst` | src/tenant/__init__.py:376 | the first occurrence goes and everything else stays in place; without one the list stays as it is |
| `Overlaps.SafeUpdateAssigns` | src/tenant/__init__.py:331-394 | a safe update sets the same columns to the same values in the object and in the row |
| `Overlaps.AlwaysSound` | src/main.py:507-541 | in every interleaving each field is what its latest update issued, each column what the last statement to set it wrote, and each row belongs to a tenant in memory, to one being deleted, or to a refused deletion or unseen creation |
| `Overlaps.OverlapsAgree` | src/tenant/__init__.py:196-394 | after every interleaving of safe operations, once nothing is under way, memory and table agree iff no row was left behind and no column is spoiled: the statement of its latest update was overtaken by an earlier one with another value, or failed and the others left another value |
| `Overlaps.InTurnOvertakesNothing` | src/tenant/__init__.py:355-363 | statements that land in the order of their updates overtake nothing, even if some land twice |
| `Overlaps.EncodeCatchesUp` | src/store/database.py:758-767 | a webhook list is written as it is when its statement gets a connection |
| `Overlaps.StartIsSound` | src/tenant/__init__.py:89-129 | a registry just built from its table has the invariant, whatever the rows |
| `Overlaps.LateCredentialsSurviveLogout` | src/store/database.py:900-925 | from any rest, credentials whose write lands after a later logout's are still in the row while the object has none |
| `Overlaps.RetryRevivesCredentials` | src/store/database.py:68-86 | from any rest, credentials that took effect unseen come back into the row when they are retried after a logout |
| `Overlaps.RefusedUpdateDisagrees` | src/tenant/__init__.py:339-363 | from any rest in agreement, an update whose statement is refused leaves memory and table apart iff it changes the object |
| `Tenants.TenantTable.SaveTenant` | src/store/database.py:515-539 | inserts a row, or rewrites only name and webhooks of an existing one; nothing if refused |
| `Tenants.TenantTable.UpdateSessionState` | src/store/database.py:796-852 | absent values keep the column, empty strings overwrite it |
| `Tenants.TenantTable.LoadTenants` | src/store/database.py:574-615 | every row once; an empty connection state reads as disconnected |
| `Tenants.TenantManager.UpdateSessionState` | src/tenant/__init__.py:331-364 | object and row change as specified, the object even if the statement is refused; every other tenant is untouched |
| `Tenants.TenantManager.AddWebhook` | src/tenant/__init__.py:366-371 | adds the url once, to both sides; a refused statement leaves it in memory only |
| `Tenants.TenantManager.RemoveWebhook` | src/tenant/__init__.py:373-382 | true iff the url was there; removes it on both sides, or in memory only if refused |
| `Tenants.TenantManager.SaveAuthState` | src/tenant/__init__.py:196-206 | credentials and has_auth on both sides, or in memory only if refused |
| `Tenants.TenantManager.ClearCreds` | src/tenant/__init__.py:208-222 | no credentials and no has_auth on either side, or in memory only if refused |
| `Tenants.TenantManager.UpdateTenantSettings` | src/tenant/__init__.py:384-394 | both sides hold the merged settings, an empty result being NULL in the row; in memory only if refused |
| `Tenants.TenantManager.CreateTenant` | src/tenant/__init__.py:239-268 | a new tenant and its row; if the statement raises no tenant is registered, and an unseen one leaves the row |
| `Tenants.TenantManager.DeleteTenantByHash` | src/tenant/__init__.py:297-310 | removes tenant and row, or neither if there is none; a refused statement leaves the row behind |
| `Tenants.TenantManager.Initialize` | src/tenant/__init__.py:89-129 | the first time, a tenant with the loaded values for every row; later calls change nothing |
| `Sync.FetchIsOldest` | src/store/database.py:2166-2190 | the query returns distinct unmarked direct messages of the tenant from the cutoff on, oldest first, and leaves out only younger ones, and only at the limit |
| `Sync.GroupsCoverRows` | src/chatwoot/sync.py:65-69 | the groups together hold exactly the rows that have a chat |
| `Sync.CountsAddUp` | src/chatwoot/sync.py:71-98 | synced, skipped and errors add up to the fetched rows with a chat plus one per mark that raised; synced is the number of deliveries less those whose post raised |
| `Sync.RowsTallied` | src/chatwoot/sync.py:149-160 | rows with neither text nor media kind are skipped, answered posts synced, and every raised post or mark an error |
| `Sync.ChatTallied` | src/chatwoot/sync.py:107-147 | a chat without a valid phone is skipped whole, one without contact or conversation is all errors; a contact made is kept |
| `Sync.PhoneIsValid` | src/utils/phone.py:77-108 | a number of ten to fifteen digits is valid with a plus in front, whatever its device; groups and hidden numbers are not |
| `Sync.RunBalanced` | src/chatwoot/sync.py:149-160 | a run keeps deliveries of every row equal to its accepted posts that raised plus its lost marks plus one if it is marked |
| `Sync.DeliveriesBalance` | src/chatwoot/sync.py:30-98 | over any number of runs each row's deliveries equal its accepted posts that raised plus its lost marks plus one if it is marked |
| `Sync.AcceptedOnceAndMarked` | src/chatwoot/sync.py:149-167 | over all runs: each message accepted at most once and exactly the accepted ones marked, iff no accepted post raised and no mark was lost |
| `Sync.DeliveredTwice` | src/chatwoot/sync.py:149-167 | a message is accepted twice or more iff it was missed twice, or missed and later marked |
| `Sync.LateAnswerDeliversTwice` | src/chatwoot/client.py:107-108 | a post accepted but answered too late is posted and accepted again by the next run although no mark raised |
| `Sync.OnceIfNothingMissed` | src/chatwoot/sync.py:149-160 | the equivalence for any state in which deliveries balance marks and misses |
| `Sync.OneConversationPerPhone` | src/chatwoot/sync.py:169-190 | every delivery of a run has the direction, content and attachment of its row, goes to the one conversation the caches end up holding for the phone of its chat, and no cache entry is replaced |
| `Sync.DeliveredInFetchedOrder` | src/chatwoot/sync.py:65-75 | for each of its chats a run delivers the accepted rows in the fetched order if the chat's contact and conversation were cached or could be made, nothing otherwise, and nothing for other chats |
| `SyncService.MessageTable.GetUnsynced` | src/store/database.py:2166-2190 | the loop returns what the query is specified to return |
| `SyncService.ChatwootSyncService.SyncSingleMessage` | src/chatwoot/sync.py:149-220 | skipped without content, an error if the post raises whether or not it was accepted, otherwise delivered and then marked |
| `SyncService.ChatwootSyncService.SyncContactMessages` | src/chatwoot/sync.py:107-167 | all skipped without a valid phone, all errors without contact or conversation; caches keep only successes |
| `SyncService.ChatwootSyncService.Group` | src/chatwoot/sync.py:65-69 | rows by chat in order, chats by first appearance |
| `SyncService.ChatwootSyncService.SyncMessageHistory` | src/chatwoot/sync.py:30-98 | the loops compute the specified run on table, Chatwoot, caches and counts |
| `Webhooks.PostsStopAtFirst` | src/webhooks/__init__.py:114-135 | posting stops at the first accepted reply, and otherwise only at the limit |
| `Webhooks.LastStatusIsLatest` | src/webhooks/__init__.py:111-123 | the reported status is that of the latest reply that carried one |
| `Webhooks.ErrorTexts` | src/webhooks/__init__.py:137-160 | the error says which kind of failure it was, with the reason cut to 100 or 200 characters |
| `Webhooks.WebhookSender.SendWithRetry` | src/webhooks/__init__.py:95-175 | success iff one of the allowed replies is 2xx; exact number of posts, status, error and total backoff; exactly one attempt saved with that number |

## Left out

- Threads in the rate limiter, and clock changes inside one call: requests are sequential and each call reads the clock once.
- SQLite branches, schema creation and JSON encoding of columns.
- Timestamps that memory and table stamp separately (last connected, last disconnected, contact and row times), chatwoot_config and enabled.
- The manager without a database, bridges held by tenants, and the bridge restart after a settings change.
- Manual reconnects and bridges created outside the restart lock: nothing is claimed about the number of live processes.
- A restart without an old bridge is modelled as one whose stop returns at once.
- Restart tasks and futures are named by numbers of their own; a future is named by its request id.
- The order in which blocked addresses, tenants or health checks are listed, log lines, error detail texts, latency and payload previews.
- Digits beyond ASCII, white space beyond Latin-1, and ids or names of unexpected types in history data other than as a malformed entry.
- Media and location columns of a message: the save copies them unchanged.
- Markdown outside flat documents, except the one nesting shown, and everything else `handle_message` formats.
- Chatwoot's other requests, attachments' contents, contact merging, the profile picture cache, caches shared between integration instances, and concurrent calls inside one Chatwoot client.
- Concurrent batch syncs, and messages stored while a batch sync runs.
- Fan-out of one webhook event to several urls, request signing, and the admin broadcasts.
- TtlCache.TTLLRUCache.constructor: requires a size of at least one; with size zero the first write of the program raises.
- Registry.WriteThrough: operations do not overlap here (`Overlaps` is about those that do), and the hash of a freshly drawn API key is not in the table yet.
- Overlaps.OverlapsAgree: creating a tenant is one step, since nobody holds its key before both sides are filed.
- History.StoreChatMessages: takes no other save to come between its own; overlapping saves are the subject of the index theorem.
