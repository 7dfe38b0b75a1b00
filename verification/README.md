# calendar-bridge: a verified model of the busy-block engine

calendar-bridge keeps several people's (or one person's several) calendars from
double-booking: every real event on one account is mirrored as a tagged "busy"
block on every other account, and a block goes when its source goes. This
project models one synchronization pass together with the client stack it runs
on, and three smaller state machines beside it, and proves what they promise.

The pass is modelled imperatively, as the program has it: fetch and classify
every account, mirror every event, collect stale blocks, over
`ProviderClient` → `GoogleProvider` → `RetryingClient` → `Client` → `Server`.
`Server` is the calendar service. Between any two calls others may edit its
calendars, and every call may fail, with or without effect. The proofs run on
values: what one call does to a calendar is a relation between two maps, and
each method is proved against such relations.

| files | what they hold |
|---|---|
| `Basics`, `Events`, `Calendars` | events in both representations, ownership, the bridge; stored calendars, blocks by key, keyed writes, other writers |
| `WriteLog`, `Server`, `Client`, `Retry`, `RetryingClient`, `GoogleProvider`, `ProviderClient` | the log of applied writes and what they were meant for, the service and the client stack |
| `Target`, `Plan`, `Progress` | the goal of every key, the requests a pass calls for, a pass in the middle |
| `Engine`, `Mirroring`, `Collecting`, `Pass`, `Runs` | one block, phase 2, phase 3, the pass, the daemon's loop |
| `Theorems`, `Interruption`, `Safety`, `Content` | consequences: mirroring, idempotence, confluence, dry runs, the index; a pass cut short after any of its writes; what every write was decided from; non-interference |
| `Debouncer`, `Watch`, `TokenStore` | the three machines beside the engine |

## What is assumed, and where

- **Nobody else creates blocks** (`Server.tame`): other writers may edit, add and
  remove events freely, but do not create live owned blocks. Uniqueness of
  blocks, and where blocks come from, are proved under this and nothing more.
  Nothing is claimed against a second instance of the program inserting at the
  same time, which nothing in the code prevents (see below).
- **Nobody else writes during the pass** (`Server.quiet`): the exact results of a
  pass (what it reaches, its counts, its requests, a silent second pass) are
  proved under this, blocks being unique at the start (`Pass.CalmStart`);
  `Theorems.DuplicatesSettleExactlyWhen` and `DuplicatesSettleOnCalendars` show
  what happens without uniqueness.
  Failures are not restricted: calls fail in every way, with or without effect,
  and each failure is contained in its own cell, one source on one destination.
- **What the service saw** is recorded where it happens and nowhere else.
  `Server.Journal.listings` gains an entry when the service answers a listing,
  with the account's calendar at that moment; `Server.Journal.calls` gains one for
  every call that reaches an account's client, be it a listing, a lookup or a
  write request, with the error it came to if any; `Server.log` gains one for
  every write applied, and `Server.replies` the outcome of every try. The
  journal is an object of its own, so the frame of a method says whether it can
  have called anything. "Listed", "asked", "requested" and "applied" in the table
  below mean these.
- **Faults** (`Server.faults`) are counted by the service: replies that the
  calendars do not call for, pages that fail to arrive, contexts found to be
  done (`Server.halts` counts the last kind alone). A calm pass that meets none
  has no error, and so reaches every goal.
- **Safety of writes** (`Pass.PassWrote`, `Safety.EveryWriteIsDecided`) needs
  none of this. Whoever else writes, every edit giving the event a version never
  issued before, and whether or not blocks are unique or index keys distinct:
  each write applied for a pass either puts the title and the span of an event
  listed as live on a new block or on the version of a block just read, or, in
  the last phase only, removes an event owned at that step that was listed as a
  stale block.
- **Insert faults.** An HTTP error reply to an insert means it had no effect; any
  other failure may have taken effect, but not later than the failure. Updates
  and deletes may take effect whatever is replied, except that a 404 or 410 to a
  delete is truthful.
- **Listings** come from one snapshot of the calendar, each event once, on any
  finite chain of pages, with nil entries anywhere. A filtered query covers the
  matching events; anything may come with them.
- **Index keys** join an account name and an event ID with `|`.
  `Plan.IndexKeysCollideExactlyWhen` says which sources share one. The exact
  results of a pass assume that no event ID contains the separator
  (`Plan.BarFree`), which every pass preserves.
- **Configuration**: account names and calendar IDs are non-empty and names are
  unique (`Target.ConfigOk`), as configuration loading enforces. Each account has
  one calendar.

## Where the code and its documentation differ

The model follows the code.

- `docs/CONFIGURATION.md:81` says the blocks of a renamed account are removed by
  the next pass. The collector skips blocks whose source account is not among
  the fetched ones (`internal/sync/sync.go:290`), so blocks naming an unknown
  account stay (`Safety.FailedAccountsAreSafe`).
- `docs/ARCHITECTURE.md:255` says an event changed between the fetch and its
  delete fails its precondition. Through the bridge the engine never sees an
  ETag (`Events.ViewPreserves`): the provider reads the event again, checks
  ownership, and deletes the version it read. Whatever the listing showed, the
  event under the ID is deleted if it is owned when the delete is called
  (`GoogleProvider.DeleteBlock`).
- `docs/ARCHITECTURE.md:254` says the pass stops when the lookup after an
  ambiguous insert fails. The insert is not retried, but the pass goes on: every
  other cell ends at its goal (`Pass.SyncOnce`).
- `docs/ARCHITECTURE.md:269` says a pass run by hand beside the daemon is
  harmless. An insert follows its lookup without a guard, so two instances can
  both find no block and both insert one: blocks stay unique exactly when the key
  still has none at the moment of the insert
  (`RetryingClient.UniqueExactlyWhenNoneThen`, `TwoInstancesCollide`).

## Model

| member | source | states |
|---|---|---|
| Events.BridgeRetraction | internal/sync/provider_client.go:42-76 | Out through the bridge and back is the identity exactly on events that carry a title only when owned. |
| Events.TimesCompareAsSpans | internal/sync/provider.go:52-54 | The engine's comparison of times after the bridge is span equality before it; a span survives the trip. |
| Events.ViewPreserves | internal/sync/google_provider.go:33-78 | The trip the other way is idempotent and keeps everything the engine reads: ownership, source identity, cancelled, busy decision, spans with empty as nil; it drops text, place and version. |
| Events.WriteGateIsCollectable | internal/sync/provider.go:93-95 | What may be written is exactly what is owned and complete enough to be collected. |
| Events.ContentIsInvisible | internal/sync/google_provider.go:60-78 | Unowned events that differ only in title, text, place or entries of other attendees, the owner's own entries answering the same in the same order, look the same to the engine. |
| Events.OwnResponse | internal/sync/sync.go:117-124 | The owner's response is that of the first attendee entry marked as the owner's, whatever entries of others stand before it, and empty when there is none. |
| Events.TakesUpTime | internal/sync/sync.go:145-150 | An event takes up time exactly when it is not transparent and the owner's first entry, if there is one, is not declined. |
| Events.BlockByItsFields | internal/sync/sync.go:94-115 | A live identifiable block, by its fields: not cancelled, tagged with the program's value, and with non-empty source account, calendar and event. |
| Retry.Ceiling | internal/sync/retry.go:111-130 | The ceiling of a wait is positive and within the configured maximum. |
| Retry.BackoffFor | internal/sync/retry.go:111-136 | Any jitter draw gives a wait in [0, ceiling), the draw's share of it cut off to a whole nanosecond. |
| Retry.CeilingDoubles | internal/sync/retry.go:111-150 | The first ceiling is the smaller of base and cap, each with its default, and each next one the smaller of twice the last and the cap; past exponent 62 it stays. |
| Retry.Run | internal/sync/retry.go:159-202 | One call, or at most MaxAttempts, and exactly max(1, MaxAttempts) when every call fails transiently under a live context; another call only after a transient failure with a live context; success exactly when the last call succeeded; the error is the last call's or joined with the context's; the time waited is the sum of the waits drawn, below that of the ceilings. |
| Retry.TransientIsAmbiguousOrAnswered | internal/sync/retry.go:53-107 | What is retried is either unanswered, hence ambiguous, or a 429 or 5xx; gone, failed precondition and a failed reconciliation are never retried. |
| Retry.ClassesByLeaves | internal/sync/retry.go:53-107 | For any tree of joined errors: the first HTTP answer in it decides, 429 and 500 to 599 transient, 404 and 410 gone, 412 a failed precondition, and never ambiguous; without one, the first name-lookup and network errors decide, and transient and ambiguous are the same. |
| Retry.ClassesOfOne | internal/sync/retry.go:53-76 | An HTTP error is retried exactly for 429 and 500 to 599, a name failure exactly when temporary or timed out, a network error exactly on a timeout, nothing else; and an answer joined with anything goes by the answer. |
| Retry.CalledAgain | internal/sync/retry.go:174-201 | One turn of the loop either ends it as promised or leaves only transient failures and an attempt to spare. |
| RetryingClient.BeforeCall | internal/sync/retry.go:166-173 | A turn stops before its call exactly when the context is done, with the promised error. |
| RetryingClient.AfterFailure | internal/sync/retry.go:174-201 | A failed call ends the loop if it is final, if no attempt is left, or, only then short of attempts, if the context is found done while waiting; otherwise there is an attempt to spare. |
| Client.ReadAll | internal/sync/client.go:64-87 | Following page tokens over any finite chain yields the concatenation, or the error of the first page that fails. |
| Client.FirstOn | internal/sync/client.go:114-136 | On one page, the first uncancelled owned block with exactly the identity asked for. |
| Client.FindIn | internal/sync/client.go:89-142 | Over any finite chain of pages the first such block, nil only if no page has one, an error only if no earlier page had one. |
| Client.ListEvents | internal/sync/client.go:64-87 | A listing holds exactly the events in the window, each once. |
| Client.FindBlockBySource | internal/sync/client.go:89-142 | A find is true of the calendar; nil means no block has the key. |
| Client.GetEvent | internal/sync/client.go:148-158 | The event, or none exactly when it is absent; other failures are errors. |
| RetryingClient.ListEvents | internal/sync/retrying_client.go:65-73 | The listing is of a calendar the service had during the call; the tries are the replies it gave, and obey the retry loop. |
| RetryingClient.FindBlockBySource | internal/sync/retrying_client.go:75-83 | The answer is true when it is given; the tries are the replies the service gave, one query each, and without a fault there is just one. |
| RetryingClient.GetEvent | internal/sync/retrying_client.go:85-93 | The event as it is when the answer is given; the tries are the replies the service gave, obey the retry loop, and without a fault there is just one. |
| RetryingClient.UniqueExactlyWhenNoneThen | docs/ARCHITECTURE.md:269 | An insert keeps blocks unique exactly when its key has no block at that moment. |
| RetryingClient.TwoInstancesCollide | docs/ARCHITECTURE.md:269 | Two instances that both look before either inserts leave two blocks for one source. |
| RetryingClient.InsertOnce | internal/sync/retrying_client.go:101-106 | One insert call: what it stored is in the log, an answered error stored nothing, and with no block before there is at most one after. |
| RetryingClient.InsertAttempt | internal/sync/retrying_client.go:101-129 | After a failure worth retrying there is still no block for the key, whatever the failed insert did; the lookup is made exactly after an ambiguous reply to a block that names its source, and decides the result. |
| RetryingClient.InsertEvent | internal/sync/retrying_client.go:95-131 | Blocks stay unique under every pattern of timeouts, failed lookups and exhausted retries; nothing but the given block is stored, alone at most once; success returns a block of that source; it fails only on a fault, and without one the log gains just the event returned. |
| RetryingClient.FoundIsMade | internal/sync/retrying_client.go:116-120 | Alone, what the reconciling lookup finds is what the insert made. |
| RetryingClient.UpdateAttempt | internal/sync/retrying_client.go:133-141 | A conditional update hits only the version that was read, and leaves it unusable for a second time; without a fault it fails only when the calendars refuse it. |
| RetryingClient.UpdateEvent | internal/sync/retrying_client.go:133-141 | Repeated or not, the update is applied over the version read; success returns the last write applied; the tries are the replies the service gave, cut short only by a context found done; without a fault there is one try, it fails only with a 404 or 412, and the log gains just what was stored; alone, over a current version, it fails only on a fault. |
| RetryingClient.DeleteEvent | internal/sync/retrying_client.go:143-162 | Success means absent; at the first try it means this call deleted the event, and after a repetition "already gone" is never a failure; the tries are the replies the service gave, so taken; without a fault there is one; alone, over a current version, it fails only on a fault, and without one the log gains just that removal. |
| GoogleProvider.ListEvents | internal/sync/google_provider.go:92-105 | The non-nil events in order, each in its neutral form, of a calendar the service had during the call. |
| GoogleProvider.FindOwnedBlock | internal/sync/google_provider.go:107-124 | The neutral form of the block with the key, nil only if there is none. |
| GoogleProvider.NewBlock | internal/sync/google_provider.go:143-154 | A new block carries the ownership given, and its key is the source's when the write gate passes. |
| GoogleProvider.InsertBlock | internal/sync/google_provider.go:126-176 | Refuses incomplete ownership and otherwise fails only on a fault; keeps blocks unique whatever fails; stores nothing but the new block, alone exactly that, or returns the one that exists; without a fault the log gains one creation or nothing. |
| GoogleProvider.InsertFresh | internal/sync/google_provider.go:155-176 | With no block before, success means the stored block, also when it was found after an ambiguous failure; it fails only on a fault. |
| GoogleProvider.UpdateAttempt | internal/sync/google_provider.go:199-250 | One re-find, re-check and conditional write; left undone only by a failed precondition; alone, an error only on a fault. |
| GoogleProvider.WriteOver | internal/sync/google_provider.go:218-240 | The conditional write over the block just found: without a fault one reply, a failure only with 404 or 412, and just that write in the log; success is the last write applied. |
| GoogleProvider.UpdateBlock | internal/sync/google_provider.go:178-251 | Every write hits an owned version just read and changes only span and title; success is the last write applied, or there is no block with the key; one edit by somebody else is survived: without a fault it fails exactly when the service answered two writes with 412, or the last with 404; alone, the block under the key is moved and retitled, or nil is returned when there is none, and it fails only on a fault; without one, one write, and one block moved even among duplicates. |
| GoogleProvider.DeleteAttempt | internal/sync/google_provider.go:262-284 | One re-read, ownership check and conditional delete; left undone only by a failed precondition. |
| GoogleProvider.DeleteBlock | internal/sync/google_provider.go:253-286 | Only an event owned at that step is removed; nil means absent; one edit by somebody else is survived: without a fault it fails exactly when the event is not owned, was gone under the delete, or two deletes were answered with 412; alone and without a fault, an owned event is removed by one write, an absent one is success, and an unowned one is refused and kept. |
| ProviderClient.ListEvents | internal/sync/provider_client.go:78-88 | The engine gets the view of every event in the window, each once, of a calendar the service had during the call; the call is recorded with its outcome, which the replies it was given bear out. |
| ProviderClient.FindBlockBySource | internal/sync/provider_client.go:90-96 | The view of the block with the key, nil only if there is none; the call is recorded with its outcome, which the replies bear out. |
| ProviderClient.InsertEvent | internal/sync/provider_client.go:98-114 | The write gate, uniqueness, and the block stored, through the bridge; the request is recorded with its outcome; past the gate it fails only on a fault, and without one a block is created by one write. |
| ProviderClient.UpdateEvent | internal/sync/provider_client.go:116-133 | The update is of the block with the payload's identity, whatever ETag the caller has; the request is recorded with its outcome; without a fault it fails exactly after two 412s or a 404, and alone it is one write. |
| ProviderClient.DeleteEvent | internal/sync/provider_client.go:135-141 | The delete is of an event owned when deleted, whatever ETag the caller has; the request is recorded with its outcome; without a fault it fails exactly for an event unowned, gone under the delete, or refused twice with 412, and alone it is one write. |
| WriteLog.SafeSinceMeans | internal/sync/google_provider.go:126-286 | Every write logged since carries out one of the given intents. |
| WriteLog.SafeReach | docs/ARCHITECTURE.md:137-139 | Such writes bring a calendar no key beyond those of blocks meant to be created on it. |
| Target.GoalStays | internal/sync/sync.go:245-311 | No pass, however it fails, changes the goal of any key. |
| Target.GoalStaysOnTheWay | internal/sync/sync.go:245-311 | Nor does a pass cut short after some of its writes. |
| Target.LiveStays | internal/sync/sync.go:211-227 | No pass changes which sources are live, or any source. |
| Target.BetweenCompose | internal/sync/sync.go:245-311 | Any number of passes, each failing anywhere, is again such a pass. |
| Target.InterruptionIsHarmless | internal/sync/sync.go:245-311 | An interrupted pass and then an error-free one end where one error-free pass ends, up to block IDs and versions. |
| Target.CutShortIsHarmless | docs/ARCHITECTURE.md:256-268 | From any state on the way an error-free pass ends where one error-free pass from the start ends. |
| Target.SettledIsAtGoal | docs/ARCHITECTURE.md:261-273 | After an error-free pass nothing is left to do. |
| Target.MirroredIsInWindow | internal/sync/sync.go:180-181 | With nothing left to do, the block of a live source, which is in the fetch window, is in the window too. |
| Plan.IndexKeyInjective | internal/sync/sync.go:156 | Equal index keys mean equal sources, given no separator in event IDs. |
| Plan.IndexKeysCollideExactlyWhen | internal/sync/sync.go:156 | Two sources share an index key exactly when they are equal or one's account name runs on, past a separator, into the other's event ID. |
| Plan.PlainAccountsSuffice | internal/sync/sync.go:156 | With account names free of the separator index keys are distinct. |
| Plan.ClassesAreFilters | internal/sync/sync.go:209-227 | Real and owned events are exactly the listed events meeting the tests. |
| Plan.SkippedCounts | internal/sync/sync.go:223-226 | What a listing skips is as many as the events in the window that are live, nobody's block and take up no time. |
| Plan.OnlySpanCrosses | internal/sync/sync.go:371-409 | Only the identifier and the span of a source reach a write: the block asked for is opaque, private, tagged with the source and otherwise empty but for the title, and an update changes nothing but span and title. |
| Plan.IndexIsBuiltRight | internal/sync/sync.go:209-221 | The index built from a listing points only at current blocks, and covers every block in the window. |
| Plan.IndexFollows | internal/sync/sync.go:386-389 | After a write for a key the index is right about every other key, and about that one too once it points at the new block. |
| Plan.NoRequestIffWanted | internal/sync/sync.go:356-364 | No write is called for exactly when the block already has the source's span and the title. |
| Plan.WantedIsGoal | internal/sync/sync.go:371-409 | The block asked for is the goal of its key. |
| Plan.FollowedAlike | internal/sync/sync.go:338-422 | The requests determine the writes applied for them, up to identifiers and versions. |
| Progress.OthersAtGoal | internal/sync/sync.go:245-311 | Keys that neither phase deals with are where they should be. |
| Progress.Advance | internal/sync/sync.go:245-311 | Each write moves one key to its goal and leaves every other key and event alone. |
| Progress.Finish | internal/sync/sync.go:245-311 | With every cell dealt with, every key whose own call did not fail is at its goal. |
| Progress.NothingPlanned | docs/ARCHITECTURE.md:266 | With nothing left to do, no addition, update or removal is counted. |
| Engine.Lookup | internal/sync/sync.go:346-354 | From an index that is right, or else from the service, the block under the key; a hit makes no call, and otherwise one is made and its error is the one returned. |
| Engine.EnsureBlock | internal/sync/sync.go:346-423 | Writes only what is meant for its source, whoever else writes, and asks for at most one write; an error is that of a call it made for this source on this destination, the last one, and without an error none of its calls came to one; alone, asks for what the destination calls for and makes the block the wanted one, failing only on a fault and then leaving it old or new and the index right; without a fault exactly that write is applied; in a dry run only the outcome; settled and indexed, not even a lookup; and with duplicates the index entry decides and one of them is moved. |
| Engine.UpdateExisting | internal/sync/sync.go:371-390 | The update half; the index follows only a write that succeeded. |
| Engine.CreateNew | internal/sync/sync.go:393-422 | The insert half; the index gains the block that was stored. |
| Mirroring.MirrorTo | internal/sync/sync.go:251-266 | One source and destination: exact state, counts and request, whatever failed before; an error sets aside its own cell only, and is that of a call made for it; without a fault the log follows the request. |
| Mirroring.MirrorAll | internal/sync/sync.go:245-269 | Phase 2 deals with every (real event, other account) pair: each ends at its goal and is counted unless its own call failed; whoever else writes, every failure reported is the failure of a call made for that pair with that error, and every failed call is reported; the requests that reach the clients are the planned ones in order but for at most one for each failure; no fault, no failure, and one write for each request in order. |
| Mirroring.TellsMeans | internal/sync/sync.go:255-259 | Of calls and failures that tell of each other: every failure has a call for its destination and key that came to its error, and every call that came to an error has its failure. |
| Mirroring.AllCellsAreMirrorCells | internal/sync/sync.go:248-254 | Phase 2's pairs are exactly the live real events on every other fetched account. |
| Collecting.LiveIds | internal/sync/sync.go:273-278 | The live set holds the index keys of all real events listed. |
| Collecting.LiveSetIsLive | internal/sync/sync.go:273-278 | The live set answers exactly whether a source is live. |
| Collecting.StaleIsCollectable | internal/sync/sync.go:281-295 | The staleness test on a listed block holds exactly when its source account was fetched and its source is not live. |
| Collecting.CollectAll | internal/sync/sync.go:280-311 | Phase 3 removes and counts every stale block unless its own call failed, and nothing else, by the planned requests, as they reach the clients; every failure is the failure of a removal it asked for, and the other way round; without a fault by one write for each; a dry run only counts. |
| Collecting.CollectedCellsAreCollectCells | internal/sync/sync.go:280-297 | Phase 3's blocks are exactly the listed ones whose source is gone. |
| Pass.Classify | internal/sync/sync.go:209-227 | The loop computes the real and the owned events, the last-wins index and the skipped count. |
| Pass.Fetch | internal/sync/sync.go:199-234 | Every configured account is asked for one listing, in order; those whose call came to an error are the failed ones, with those errors, and the others are fetched, whatever became of the accounts before; what was fetched is classified from a true listing of a calendar the service had during the call, whoever else writes; nothing is written. |
| Pass.PolledMeans | internal/sync/sync.go:199-207 | The i-th call is the listing of the i-th account: it is among the fetched exactly when the call came to no error, and otherwise it and the error are reported. |
| Pass.FailuresAreCalls | internal/sync/sync.go:199-311 | No failure of a pass is made up and none is kept back: each failed account and each failed pair has its own call, made in the pass and answered so, and each such answer is reported. |
| Pass.SkippedIsFree | internal/sync/sync.go:223-226 | The skipped count is the number of events in the window, on all accounts fetched, that are live, nobody's block and take up no time. |
| Pass.MirrorThenCollect | internal/sync/sync.go:245-313 | The two phases that write, from any index that is right: every cell but the failed ones at its goal and counted, errors as many as failed cells, each the error of a call made for its cell. |
| Pass.Reconcile | internal/sync/sync.go:236-319 | The pass once it has fetched: no write with fewer than two accounts or in a dry run, the same result whatever the index, and every failure that of a call made. |
| Pass.SyncOnce | internal/sync/sync.go:172-319 | The whole pass. Whoever else writes: it is decided from calendars the service listed in it, phase 2 only mirrors listed events, phase 3 only removes blocks listed as stale, blocks stay unique, one listing is asked of every account, and the failures reported are exactly those of the calls made. Alone: every key ends at its goal and is counted unless its own call failed, by the planned requests but for the failed ones; with no fault there is no error and one write for each request; with nothing to do, no call beyond the listings. |
| Pass.CleanPass | internal/sync/sync.go:313-319 | A pass with no error has reached every goal, having asked for exactly the planned writes. |
| Pass.LogIsThePlan | internal/sync/sync.go:245-311 | Without a fault the writes applied are the plan: as many, each carrying out the planned request in its place. |
| Pass.IntentsAreReal | internal/sync/sync.go:211-254 | Blocks may be created only for events listed as live and unowned on another fetched account. |
| Runs.RunPasses | cmd/calendar-bridge/main.go:533-570 | Over any number of passes at any clocks, with faults and other writers: every pass writes only what it decided from what the service listed in it, blocks stay unique, and the blocks on a calendar are bounded by those it began with plus the events of other accounts live on calendars the service listed in the run. |
| Runs.RunTwice | docs/ARCHITECTURE.md:256-268 | Two passes at one clock: after one whose writes all succeeded, a second that fetches no more accounts changes, writes, looks up and counts nothing; and whatever failed in the first, a second that meets no fault has no error and ends where one error-free pass would have. |
| Runs.RunMany | docs/ARCHITECTURE.md:256-268 | Any number of passes at one clock, each failing anywhere, and one more: if that meets no fault it has no error, nothing is left to do, and the calendars are as one error-free pass would have left them. |
| Runs.ListedAreReal | internal/sync/sync.go:211-227 | A listed cell names an event that was live and unowned on another account's calendar when the service listed that calendar in the run. |
| Runs.UniqueBlocksCount | docs/ARCHITECTURE.md:137-146 | With unique blocks there are as many blocks as source keys. |
| Theorems.EveryEventIsMirrored | internal/sync/sync.go:245-269 | After a pass every live real event has exactly one block on every other account, with its span and the title, unless that very call failed; and a new block carries nothing else of it. |
| Theorems.FreeEventsHoldNoTime | internal/sync/sync.go:126-150 | An event marked transparent, or whose owner's first entry is declined, gains no block in a pass, and loses one in the window, unless its own call failed. |
| Theorems.BusyEventsAreMirrored | internal/sync/sync.go:126-150 | Every other live unowned event in the window, tentative, accepted, unanswered or without attendees, has its block on every other account after a pass, unless its own call failed. |
| Theorems.BlocksGoExactlyWhenStale | internal/sync/sync.go:280-311 | A block whose call did not fail goes if and only if it was in the window, its source account was fetched and its source is not live. |
| Theorems.NoBlockOutlivesItsSource | internal/sync/sync.go:271-311 | Afterwards no block in the window outlives a source on a fetched account, unless its own call failed. |
| Theorems.OthersAreUntouched | internal/sync/sync.go:211-227 | Whatever fails, an event that is not a live identifiable block is not changed or removed, and none appears. |
| Safety.EveryWriteIsDecided | internal/sync/sync.go:248-311 | Whoever else writes and whatever fails: every write of a pass is to a fetched account, and either mirrors an event that was live on its account when the service listed that, or removes a block so listed as stale. |
| Safety.FailedAccountsAreSafe | internal/sync/sync.go:236-243 | Whoever else writes: a calendar whose fetch failed is not written, and no block that the service listed as mirroring a failed or unknown account is removed. |
| Safety.WrittenThenRemoved | internal/sync/sync.go:271-311 | Whoever else writes: an event both written and removed in one pass was listed by the service under another source than it was written for. |
| Safety.CollectorSparesMirrored | internal/sync/sync.go:271-311 | With nobody else writing, unique blocks or not, phase 3 never removes a block phase 2 wrote. |
| Theorems.UnfetchedAccountsAreSafe | internal/sync/sync.go:236-243 | From a calm start, the blocks of failed and unknown accounts stay exactly as they were. |
| Theorems.BlocksComeFromEvents | docs/ARCHITECTURE.md:137-139 | A key gains a block only for a live unowned event of another account. |
| Theorems.BarFreeStays | internal/sync/sync.go:156 | No pass brings the separator into the keys of blocks. |
| Theorems.PhasesAreDisjoint | internal/sync/sync.go:271-311 | No cell is both mirrored and collected. |
| Theorems.CountsMean | internal/sync/sync.go:80-82 | Which cells count as created, updated and deleted, in terms of the calendars alone. |
| Theorems.AtGoalWithFewer | internal/sync/sync.go:236-239 | With nothing left to do for all accounts, nothing is left when fewer are fetched. |
| Theorems.SecondPassIsSilent | docs/ARCHITECTURE.md:261-273 | After an error-free pass, another at the same clock starts with nothing to do, so by the pass's contract it writes nothing and looks nothing up. |
| Theorems.InterruptionsAreHarmless | docs/ARCHITECTURE.md:256-268 | Any number of interrupted or failing passes, then an error-free one, end where one error-free pass would. |
| Interruption.CreationGoesOn | internal/sync/sync.go:393-409 | A creation meant for a source takes its key to its goal, from anywhere on the way. |
| Interruption.UpdateGoesOn | internal/sync/sync.go:371-390 | So does an update, whether the block was as fetched or at its goal already. |
| Interruption.RemovalGoesOn | internal/sync/sync.go:280-311 | So does the removal of a stale block. |
| Interruption.CutShortAnywhere | docs/ARCHITECTURE.md:256-268 | Cut short after any number of its writes, with calls failing before that in any way, a pass leaves each key as it was or at its goal, every other event as it was, and blocks unique. |
| Interruption.SyncWatched | docs/ARCHITECTURE.md:256-268 | So for every calm pass, whatever fails, after every one of its writes. |
| Interruption.CutShortThenResumed | docs/ARCHITECTURE.md:256-268 | A pass cut short after any of its writes and then an error-free one end where one error-free pass would. |
| Theorems.DryRunIsFaithful | internal/sync/sync.go:298-301 | From the same calendars a dry run writes nothing and counts what the real pass counts. |
| Theorems.DuplicatesSettleExactlyWhen | internal/sync/sync.go:216-219 | With several blocks going by one index key, in any order of listing and of query: once the found one is updated, the source calls for no further update exactly when it was the last listed one or that one was up to date already. |
| Theorems.DuplicatesSettleOnCalendars | internal/sync/sync.go:216-219 | The same for calendars: an update moves one of any number of blocks of a source, and the next pass calls for no further update exactly when the last block it is shown for the source is that one or was up to date. |
| Theorems.IndexIsACache | internal/sync/sync.go:338-354 | Two passes from the same calendars without errors, with the index, with none or with any that is right, ask for the same writes, count the same and leave the same blocks; without faults the service applied the same writes, up to identifiers and versions. |
| Theorems.NoIndexIsRight | internal/sync/sync.go:190-193 | A pass may do without an index, looking every block up. |
| Content.ContentCannotInfluenceWrites | internal/sync/sync.go:393-409 | Whoever else writes and whatever fails: what was fetched could as well have come from listed calendars differing only in title, text, place and other people's attendee entries of unowned events, and every write applied is one those call for. |
| Content.ContentCannotInfluenceAPass | internal/sync/sync.go:393-409 | With nobody else writing, whatever fails, for calendars differing only so: the planned requests are the same, those issued are among them in order, every block whose call failed in neither ends the same, and without faults the service applied the same writes, up to identifiers and versions. |
| Content.SameListings | internal/sync/google_provider.go:60-105 | Such calendars show the engine exactly the same listings. |
| Content.SameLookups | internal/sync/google_provider.go:107-124 | A lookup is answered the same in both. |
| Content.SameGoals | internal/sync/sync.go:145-150 | Every key has the same goal in both. |
| Debouncer.Debouncer.constructor | internal/webhook/receiver.go:146-151 | A non-positive interval becomes five seconds; nothing is pending. |
| Debouncer.Debouncer.Notify | internal/webhook/receiver.go:155-168 | A new generation, due a whole interval from now, replaces any callback not yet started. |
| Debouncer.Debouncer.Fire | internal/webhook/receiver.go:170-183 | A started callback leaves a token only if it is current and the channel is empty. |
| Debouncer.EmitsOnlyWhenQuiet | internal/webhook/receiver.go:135-139 | In every interleaving only the latest generation emits, a full interval after the last Notify. |
| Debouncer.AtMostOneToken | internal/webhook/receiver.go:176-182 | The channel never holds more than one token. |
| Debouncer.NoNotifyIsLost | internal/webhook/receiver.go:153-168 | After every Notify a current callback is pending, a token is queued, or one was received since. |
| Debouncer.EmissionsAreSpaced | internal/webhook/receiver.go:125-127 | Two triggers are at least an interval apart. |
| Debouncer.PendingCanFire | internal/webhook/receiver.go:153-183 | A pending callback can always be brought to leave a token. |
| Watch.TtlCoversSkew | internal/webhook/manager.go:72-75 | The TTL covers the renewal skew exactly when it is a minute or more. |
| Watch.SkewByTtl | internal/webhook/manager.go:72-75 | The skew is a minute for a TTL up to ten minutes and a tenth of the TTL in whole nanoseconds above that. |
| Watch.KeysIdentify | internal/webhook/manager.go:87 | With account names free of the separator a key stands for one calendar. |
| Watch.Manager.constructor | internal/webhook/manager.go:68-85 | The skew is a tenth of the TTL in whole nanoseconds, a minute at least. |
| Watch.Manager.Register | internal/webhook/manager.go:117-128 | One call with the configured TTL; on success the map holds the new channel and the rest is untouched; on failure nothing changes. |
| Watch.Manager.RegisterAll | internal/webhook/manager.go:93-101 | Every target whose own registration did not fail is held for a skew from now, whatever became of the others. |
| Watch.Manager.Renew | internal/webhook/manager.go:132-157 | A channel good past the next tick is left alone; otherwise one call: a failure keeps the old channel, and a success puts the new one in the map before the old one is stopped. |
| Watch.Manager.RenewExpiring | internal/webhook/manager.go:130-158 | No key is dropped, and every target whose own call in the tick did not fail, or that needed none, is held for a skew from now, whatever became of the others. |
| Watch.Manager.StopAll | internal/webhook/manager.go:160-179 | Everything held is stopped and every channel ever returned has been stopped. |
| Watch.Manager.Run | internal/webhook/manager.go:92-115 | From first registration to shutdown a key always has an un-stopped channel, after every single call; in each phase every target whose own call did not fail is held past the next tick, and the calls bear the tick's time and the TTL; afterwards nothing is open. |
| Watch.NoneForgotten | internal/webhook/manager.go:150-155 | Every channel Watch returned is the one held for its key or was passed to Stop, and the one held was not. |
| Watch.NoLapse | internal/webhook/manager.go:51-53 | With ticks at most a skew apart, a target none of whose own registrations failed or brought a channel shorter than a skew has an unexpired channel at every instant of a run, whatever became of the other targets. |
| TokenStore.Write | internal/atomicfile/atomicfile.go:36-79 | From before to after in single file-system steps, after each of which a crash leaves the file reading as before or as all of the new data; a nil return survives a crash; a failure before the rename leaves the file alone; no temporary file stays unless removing it failed. |
| TokenStore.Replace | internal/atomicfile/atomicfile.go:38-79 | The same for the steps up to the directory sync, and what a failure of each leaves. |
| TokenStore.PersistingTokenSource.Token | internal/googleauth/googleauth.go:297-331 | Returns what the inner source returned; with memory and file agreeing before, after a call without a write failure both hold the returned access token and expiry, and the returned refresh token or, that being empty, the one remembered; it writes back only what changed, in single file-system steps, and remembers it only if the whole write went well; once there is a refresh token, it is never lost, after whichever step a crash comes. |
| TokenStore.OneCallByFields | internal/googleauth/googleauth.go:309-343 | What one successful call leaves on file and in memory, by access token, expiry and refresh token; nothing is written exactly when nothing worth it differs. |
| TokenStore.LoadsExactlyWhen | internal/googleauth/googleauth.go:386-407 | A file loads exactly when it holds a whole token with an access or a refresh token, and then as that token. |
| TokenStore.PersistingTokenSource.Restart | internal/googleauth/googleauth.go:386-407 | After a crash the file reads as one of the contents it may have, and a kept token loads. |
| TokenStore.PersistingTokenSource.Live | internal/googleauth/googleauth.go:297-343 | Over any calls, failing writes and crashes after any file-system step the file keeps a complete token with a refresh token; without a crash, memory and file are those of the calls. |
| TokenStore.NewestIsOnFileExactlyWhen | internal/googleauth/googleauth.go:297-331 | Over any run of calls the file holds the newest refresh token exactly when the write of the last response that carried one went well, or, with no later write, reached the file, or the token was there before. |
| TokenStore.SupersededTokenCanReturn | internal/googleauth/googleauth.go:312-330 | A rotated token written but not remembered, for a failed directory sync, is overwritten by the superseded one when the next response carries none. |

## Left out

- HTTP, OAuth exchange, JSON and YAML, logging, signals, flags, metrics, the web UI, token comparison and host checks: plumbing and filters around the modelled logic.
- Configuration validation beyond what `Target.ConfigOk` states, and the health and status snapshot: easy members only.
- Dates and times: spans are opaque strings, and the fetch window is any predicate on an event's two endpoints. A pass has one clock.
- Google-specific behaviour beyond the stated assumptions: eventually consistent listings, cancelled events answered by a Get, recurrence, time zones, fields the service fills in.
- A second instance writing at the same time: the code has no guard across processes, so beyond showing how two can collide nothing is claimed.
- All accounts' calendars live in one `Server` object keyed by account name, where the program has one client for each account.
- The block index of a destination is passed in and returned, where the program shares one mutable map; what the sharing achieves, later calls seeing earlier writes, is kept by `Mirroring.Books`.
- The loop of `Retry.Run` is written out once for each operation of `RetryingClient`, because a method is not a value here; each is proved against the same predicate, `Retry.Retried`.
- RetryingClient.UpdateEvent: stated for calls conditional on a version just read, the only ones the stack makes; unconditional updates are modelled at `Server.Update` alone.
- RetryingClient.DeleteEvent: stated for calls conditional on a version just read, the only ones the stack makes; unconditional deletes are modelled at `Server.Delete` alone.
- Retry.BackoffFor: the product of draw and ceiling is taken over the reals and truncated, so floating-point rounding is not captured.
- The context's error is arbitrary each time it is looked at; that a cancelled context stays cancelled is not used.
- Exactness of a pass beside other writers, or with duplicates on some calendar: then what is proved is what each write was decided from, that blocks stay unique if they were, and which duplicate is updated. The exact results are of whole passes from calm calendars, with failures contained cell by cell.
- Plan.BarFree: the exact results assume event IDs free of the separator; that account names free of it would do as well is proved of the keys alone.
- TokenStore.PersistingTokenSource.Token: calls are taken in the order they get the lock, each with any response; that a response may be older than that of a call ahead of it is covered only in this sense.
- The service never answers a write with neither an event nor an error, so the checks for that are not reached.
- Debouncer.Debouncer.Notify: the generation counter is unbounded, so a stale callback outliving 2^64 notifications is not considered.
- Watch.Manager.Run: the times at which the runtime delivers ticks are a parameter, calls take no time, and the bounded time `stopAll` allows itself is not modelled.
- TokenStore.Write: a write of many parts is a step to less than a whole value and a step to a whole one; file modes and error texts are not modelled, and the directory sync is the POSIX one; on Windows it does nothing, so there durability of the rename rests on the file system.
