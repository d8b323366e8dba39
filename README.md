# Okibar karaoke bar — a verified model of its core

Okibar runs a karaoke bar session. Guests at numbered tables search for karaoke videos, reserve
songs and menu items as pending orders, and confirm them. Confirmed songs join a shared play
queue that the display consumes head first. Staff check tables out, transfer groups between
tables and edit the table roster. A server keeps the play queue and a cache of songs that have
been queued, each with an availability verdict ("can this video be embedded here?"). It answers
searches from YouTube, falling back to its cache and then to a demo result. It rechecks
availability singly or in batches of five.

The project models three pieces:

- `youtube_api.dfy` (module `YoutubeApi`) covers the YouTube wrapper:
  - the karaoke search, with its error classification;
  - the availability cascade: oEmbed probe, then the Data API, then a playable default;
  - the batch checker: a loop over groups of five, with pauses between groups.
- `server.dfy` (module `Server`) covers the server route bodies. A class `ServerState` holds
  the play queue, the table records and the song cache that the routes update in place. Pure
  functions give the search cascade's replies.
- `venue.dfy` (module `Venue`) and `karaoke_queue.dfy` (module `KaraokeQueue`) cover the client
  component:
  - `Venue` states each operation as a transition function on the component's state and
    proves the invariants about it: the song quota, the roster/table agreement, conservation
    on confirm, and queue filtering on checkout and transfer.
  - `KaraokeQueue.KaraokeBar` is the component as a class whose fields the operations update.
    Every method is proved to leave exactly the state the matching `Venue` transition computes.
  - The table-building loops (`initializeTables`, the copy-back in `updateTables`) are methods
    with loop invariants.
- `common.dfy` holds shared helpers: `Option`, JavaScript `includes`, ASCII lower-casing,
  `slice(0, n)` and integer rendering.

Network calls, the clock and id generation are parameters. An upstream call appears as the
outcome it produced (a reply, a status, or a thrown error). Times are integer milliseconds.
Prices are integer cents. Ids are supplied by the caller.

Some behaviour of the code worth knowing when reading the model:

- The song quota is checked when a song is reserved: confirmed plus pending songs must stay
  below the limit. Confirmation does not check it.
- The Data API step of the availability cascade reports its method as `youtube_api`.
- A table vacated by a transfer has no occupancy limit. Its pending orders stay behind.
- The local cache ignores a song it already holds and does not count its usage.
- `updateGroupInfo` caps the guest count at the table's limit, or at 8 when the table has none.

## Model

| member | source | states |
|---|---|---|
| Common.Lower | server/index.js:161-162 | lower-casing keeps the length and maps every character through the ASCII case map |
| Common.Take | server/index.js:164 | `slice(0, n)` returns a prefix of length min(len, n) |
| YoutubeApi.ToVideo | server/youtubeApi.js:37-44 | `id` and `videoId` carry the upstream id; title, channel and date are copied; the thumbnail is the medium one, or the standard still when it is missing or empty |
| YoutubeApi.ClassifySearchError | server/youtubeApi.js:56-69 | codes other than 400/401/403 rethrow the original message; 403 means quota exceeded iff the message mentions "quota"; 400 iff invalid request; everything else classified is an invalid key |
| YoutubeApi.SearchKaraokeVideos | server/youtubeApi.js:17-71 | without a usable key it fails with KEY_MISSING before any call; a reply maps items one for one and in order; a rejection fails with the classified message |
| YoutubeApi.CheckVideoAvailability | server/youtubeApi.js:124-203 | unplayable iff oEmbed refused with 401/403, or oEmbed was inconclusive and a configured Data API says not embeddable; the method names the first conclusive step; a recheck is requested exactly for `unknown`/`error` verdicts, which are always playable; Data API verdicts have a blocked reason iff unplayable; a successful oEmbed probe decides alone |
| YoutubeApi.SettleKeys | server/youtubeApi.js:220-229 | the batch result holds exactly the ids with at least one fulfilled check |
| YoutubeApi.SettleLatest | server/youtubeApi.js:220-229 | each id maps to the verdict of its last fulfilled check; a later rejected check leaves it alone |
| YoutubeApi.MergeGroup | server/youtubeApi.js:220-229 | merging a group's settled checks extends the result dictionary to the end of the group |
| YoutubeApi.AppendGroup | server/youtubeApi.js:212-213 | the groups taken so far concatenate to the processed prefix |
| YoutubeApi.GapsBetweenGroups | server/youtubeApi.js:232-234 | with full groups of five before the last, n ids give (n-1)/5 gaps between groups |
| YoutubeApi.BatchCheckAvailability | server/youtubeApi.js:206-238 | the result equals the settle fold over all ids; the groups are non-empty, at most five long, all full but the last, and concatenate to the input in order; pauses = groups - 1 = ceil(n/5) - 1 |
| Server.IndexOfVideo | server/index.js:79 | `findIndex` gives the first position holding the id, or -1 iff no entry has it |
| Server.AdmittedAvailability | server/index.js:55-62 | the checker's verdict when it returned; a playable `error` verdict stamped now when it threw |
| Server.Upsert | server/index.js:52-85 | a new id goes in front with usage 1 and the cache is cut to 200; a known id has its usage incremented and last use stamped at its own index, with length and every other entry unchanged |
| Server.UpsertKeepsCacheSound | server/index.js:52-85 | admission keeps the cache within 200 entries with distinct ids, and the song is cached afterwards, in front when new |
| Server.MatchingSongs | server/index.js:160-163 | the matches are exactly the cached songs whose lower-cased title or channel includes the lower-cased query |
| Server.MatchingSongsAppend | server/index.js:160-163 | matching keeps cache order: it distributes over concatenation |
| Server.AnnotateCached | server/index.js:164-167 | a cached result is flagged blocked iff its stored verdict says unplayable |
| Server.CachedSearch | server/index.js:215-222 | at most ten results, the first matches in cache order, each flagged blocked iff its stored verdict is unplayable |
| Server.StoredAvailability | server/index.js:135-138 | the verdict of the first cached entry with the id, or none when it is not cached |
| Server.AnnotateLive | server/index.js:134-141 | upstream results keep their order and count; each carries the stored verdict and is blocked iff that verdict is unplayable |
| Server.FailureReason | server/index.js:150-157 | the three known failure messages map to their reasons; anything else to "temporarily unavailable" |
| Server.DemoResult | server/index.js:178-186 | the demo result is the fixed video on the demo channel, with a title that contains the query |
| Server.SearchRoute | server/index.js:120-202 | an empty query is refused; a successful search returns the annotated live results; a failed one returns the cache search with the reason when anything matches, otherwise one demo result whose title contains the query |
| Server.SearchCachedRoute | server/index.js:209-225 | an empty query returns nothing; otherwise the capped cache search |
| Server.WithoutVideo | server/index.js:231 | the cache keeps exactly the entries with other ids, and never grows |
| Server.WithoutVideoAppend | server/index.js:231 | the deletion keeps cache order and multiplicity: it distributes over concatenation |
| Server.WithoutVideoShrinks | server/index.js:230-238 | deletion shrinks the cache iff the id was cached, so not-found is reported iff nothing was removed |
| Server.Unblocked | server/index.js:247-249 | clearing blocked songs keeps exactly the entries not stored as unplayable, and never grows the cache |
| Server.UnblockedAppend | server/index.js:247-249 | clearing blocked songs keeps cache order and multiplicity: it distributes over concatenation |
| Server.UnblockedRemovesBlocked | server/index.js:243-258 | the number cleared equals the number of blocked entries |
| Server.ApplyResults | server/index.js:293-299 | entries named in the results get the new verdict; the others keep theirs; length is unchanged |
| Server.WithoutItem | server/index.js:93 | the queue keeps exactly the items with other ids, and never grows |
| Server.WithoutItemAppend | server/index.js:93 | removal keeps queue order and multiplicity: it distributes over concatenation |
| Server.MergeRecord | server/index.js:104 | the updated record has the body's fields and the stored fields the body does not override |
| Server.ServerState.constructor | server/index.js:27-33 | the server starts with an empty queue, no table records and an empty cache |
| Server.ServerState.EnqueueSong | server/index.js:40-89 | run without interruption: the queue grows by exactly one item at its tail carrying the table number; the cache becomes the upsert; the cache stays within 200 distinct ids; tables are unchanged |
| Server.ServerState.RemoveFromQueue | server/index.js:91-96 | the queue loses exactly the items with the id; nothing else changes |
| Server.ServerState.UpdateTable | server/index.js:102-107 | the table record becomes the stored record merged with the body, and that record is returned |
| Server.ServerState.DeleteCachedSong | server/index.js:228-239 | the entries with the id go; success is reported iff the id was cached |
| Server.ServerState.ClearCachedSongs | server/index.js:241-261 | `blocked=true` drops exactly the unplayable entries and reports their number; otherwise the cache empties and reports its old length |
| Server.ServerState.RecheckCachedSong | server/index.js:263-279 | run without interruption: an uncached id is reported not found; a thrown check is reported as a failure; otherwise the verdict is written onto the entry and returned; nothing else changes |
| Server.AdmitAfterAwait | server/index.js:53-76 | when the song is still uncached after the await the result is the ordinary upsert; when another request cached it meanwhile the cache holds the id twice |
| Server.ConcurrentEnqueueDuplicates | server/index.js:53-76 | two requests for the same uncached song that both await before writing leave the id cached twice |
| Server.RecheckWriteAt | server/index.js:265-273 | the write at the index found before the await succeeds iff that index is still inside the cache, and then sets the verdict at that index |
| Server.RecheckWriteUninterrupted | server/index.js:265-273 | with distinct ids and no change during the await, the write equals setting the verdict on that video's entry only |
| Server.RecheckAfterEnqueueHitsNeighbour | server/index.js:265-273 | a new song queued during the await puts the verdict on another video's entry and leaves the rechecked song's entry as it was |
| Server.RecheckAfterDeleteThrows | server/index.js:265-277 | deleting the last cached song during the await makes the write throw, so the recheck fails |
| Server.ServerState.BatchRecheck | server/index.js:281-306 | a missing id list is refused; otherwise the results are the batch checker's, written onto the cached entries, and `updatedCount` is the number of result ids present in the cache |
| Server.ServerState.WriteVerdicts | server/index.js:292-299 | verdicts are written onto the cached entries they name, and the count is the number of result ids that are cached |
| Server.MergeVerdicts | server/index.js:292-299 | the loop over the result ids, in any order, produces the pointwise update and counts the cached ids |
| Server.MergeOneEntry | server/index.js:294-298 | one step of the merge writes the verdict at the cached index, and the index is found iff the id is cached |
| Server.MergeOneCount | server/index.js:295-298 | one step of the merge grows the count iff the id is cached |
| Server.ApplyResultsKeepsIds | server/index.js:296 | writing verdicts keeps cached ids distinct |
| Server.WithoutVideoKeepsDistinct | server/index.js:231 | deleting keeps cached ids distinct |
| Server.UnblockedKeepsDistinct | server/index.js:247-249 | clearing blocked songs keeps cached ids distinct |
| Venue.SongOrders | src/components/karaoke_queue.tsx:376 | the song orders are exactly the pending orders of type song |
| Venue.SongOrdersAppend | src/components/karaoke_queue.tsx:435 | the song orders of a concatenation are the concatenation of the song orders |
| Venue.OrdersTotalAppend | src/components/karaoke_queue.tsx:375 | the pending total is additive over concatenation |
| Venue.SongTransaction | src/components/karaoke_queue.tsx:443-455 | a reservation makes a song order at the given price for the current table |
| Venue.MenuTransaction | src/components/karaoke_queue.tsx:353-361 | a menu order is not a song order and carries the item's price and the current table |
| Venue.Reserve | src/components/karaoke_queue.tsx:430-465 | refused, with nothing changed, iff confirmed plus pending songs have reached the limit (or there is no such table); otherwise exactly one song order at the song price joins that table's pending list, no other list changes, and the song is offered to the local cache |
| Venue.AddMenuOrder | src/components/karaoke_queue.tsx:352-367 | one menu order joins the table's pending list, with no limit; no other list and nothing else changes |
| Venue.QueueEntries | src/components/karaoke_queue.tsx:379-389 | one queue entry per song order, in order, with its video, title and price, the table and its group label |
| Venue.Confirm | src/components/karaoke_queue.tsx:370-409 | nothing changes when nothing is pending; confirmation succeeds iff something is pending at an existing table |
| Venue.ConfirmEffects | src/components/karaoke_queue.tsx:374-408 | the queue grows at its tail by exactly the song orders, in pending order and at their prices; all pending orders join the table's orders; the song count grows by the song orders and the spend by the pending total; the pending list empties; nothing else changes |
| Venue.ClearPending | src/components/karaoke_queue.tsx:412-417 | the table's pending list empties; no other list and nothing else changes |
| Venue.RequestCheck | src/components/karaoke_queue.tsx:420-429 | the table is flagged; no other field or table changes |
| Venue.ReserveKeepsQuota | src/components/karaoke_queue.tsx:433-441 | reservation keeps confirmed plus pending songs within the limit for every table |
| Venue.AddMenuOrderKeepsQuota | src/components/karaoke_queue.tsx:352-367 | a menu order never counts against the song quota |
| Venue.ConfirmConserves | src/components/karaoke_queue.tsx:394-408 | for the confirmed table, songs, spend and orders, counted confirmed plus pending, are the same before and after |
| Venue.ConfirmKeepsSound | src/components/karaoke_queue.tsx:394-402 | confirmation keeps the roster and the table collection in agreement, with no negative count |
| Venue.ConfirmKeepsQuota | src/components/karaoke_queue.tsx:370-409 | confirmation keeps the song quota |
| Venue.ClearPendingKeepsQuota | src/components/karaoke_queue.tsx:412-417 | discarding pending orders keeps the song quota |
| Venue.ReserveThenConfirm | src/components/karaoke_queue.tsx:370-465 | reserving on an empty pending list and confirming puts exactly that song at the queue's tail for that table, charges the song price once and counts one song |
| Venue.PlayNext | src/components/karaoke_queue.tsx:468-477 | a non-empty queue hands its head to the display, which plays, and keeps its tail; an empty queue stops the display |
| Venue.WithoutTable | src/components/karaoke_queue.tsx:611 | the queue keeps exactly the entries of other tables |
| Venue.WithoutTableAppend | src/components/karaoke_queue.tsx:611 | the removal keeps the relative order of the remaining entries |
| Venue.Retarget | src/components/karaoke_queue.tsx:643-647 | entries of the source table name the target; every other entry is unchanged |
| Venue.ClearedTable | src/components/karaoke_queue.tsx:596-608 | a checked-out table has no orders, songs, spend, flag, occupancy or group name, and keeps a recorded occupancy limit |
| Venue.Checkout | src/components/karaoke_queue.tsx:565-612 | checking out an unknown table changes nothing; otherwise it succeeds |
| Venue.CheckoutEffects | src/components/karaoke_queue.tsx:565-612 | a table with activity is archived under its group label, and only then; its pending orders go; it is emptied; no queue entry of it remains and every other entry stays; nothing else changes |
| Venue.CheckoutKeepsSound | src/components/karaoke_queue.tsx:596-608 | checkout keeps the roster and the table collection in agreement |
| Venue.CheckoutKeepsQuota | src/components/karaoke_queue.tsx:589-608 | checkout keeps the song quota |
| Venue.Transfer | src/components/karaoke_queue.tsx:615-648 | refused with nothing changed iff the target is occupied (or a table is unknown); otherwise the target takes the source's record and is occupied, the source is vacated, and the queue is retargeted |
| Venue.TransferMovesTable | src/components/karaoke_queue.tsx:625-647 | after a transfer no entry names the source, entries of the source name the target at the same positions, others are unchanged, and the target has the source's songs, spend and orders |
| Venue.TransferCanBreakQuota | src/components/karaoke_queue.tsx:625-640 | because pending orders stay behind, a transfer onto a table with pending songs can exceed the song quota (a concrete state shows it) |
| Venue.UpdateGroup | src/components/karaoke_queue.tsx:651-663 | the group is named and the table occupied; the guest count is the requested one capped at the table's limit (8 without one); nothing else changes |
| Venue.OtherStepsKeepQuota | src/components/karaoke_queue.tsx:651-663 | group updates, check requests and `playNext` keep the song quota |
| Venue.InitialTables | src/components/karaoke_queue.tsx:86-101 | the fresh table collection has exactly the roster's numbers |
| Venue.ConfigOf | src/components/karaoke_queue.tsx:486 | `find` returns a roster entry with the number |
| Venue.InitialTablesFresh | src/components/karaoke_queue.tsx:86-101 | with distinct numbers every fresh table has its roster entry's occupancy |
| Venue.ConfigOfPrefix | src/components/karaoke_queue.tsx:486 | appending an entry for another number does not change what `find` returns |
| Venue.ConfigOfLast | src/components/karaoke_queue.tsx:486 | with distinct numbers `find` returns the entry itself |
| Venue.InitialTablesAreFresh | src/components/karaoke_queue.tsx:88-98 | every table the roster creates is empty, with no songs |
| Venue.UpdateRoster | src/components/karaoke_queue.tsx:480-494 | the tables are exactly the new roster's numbers; a table that existed keeps its live state with its roster occupancy, a new one is fresh; nothing else changes |
| Venue.UpdateRosterPreserves | src/components/karaoke_queue.tsx:483-492 | a table that stays keeps everything but its occupancy; a table that left is gone |
| Venue.UpdateRosterKeepsQuota | src/components/karaoke_queue.tsx:480-494 | roster edits keep the song quota and non-negative counts |
| Venue.MaxNumber | src/components/karaoke_queue.tsx:498 | the largest number, at least 0, bounds every roster number |
| Venue.AddTable | src/components/karaoke_queue.tsx:497-501 | the new table's number is not in the roster |
| Venue.AddTableAddsFresh | src/components/karaoke_queue.tsx:497-501 | the new table starts fresh seating four; every existing table keeps its live state |
| Venue.AddTableKeepsSound | src/components/karaoke_queue.tsx:497-501 | adding a table keeps the roster and the tables in agreement with distinct numbers |
| Venue.WithoutNumber | src/components/karaoke_queue.tsx:509 | the filtered roster has the old numbers minus the removed one, and only old entries |
| Venue.WithoutNumberLength | src/components/karaoke_queue.tsx:509 | with distinct numbers filtering drops at most one entry and keeps numbers distinct |
| Venue.RemoveTable | src/components/karaoke_queue.tsx:504-510 | refused with nothing changed while one table remains; otherwise the table is gone |
| Venue.RemoveTableKeepsSound | src/components/karaoke_queue.tsx:504-510 | removing keeps the state sound and at least one table |
| Venue.Resized | src/components/karaoke_queue.tsx:514-516 | the roster keeps its numbers and length; entries for the table get the new occupancy |
| Venue.ResizeTable | src/components/karaoke_queue.tsx:513-518 | resizing is the roster update with the resized roster |
| Venue.ResizeTableSetsOccupancy | src/components/karaoke_queue.tsx:513-518 | the resized table gets the new limit and keeps its live state |
| Venue.ResizeTableKeepsSound | src/components/karaoke_queue.tsx:513-518 | resizing keeps the state sound |
| Venue.CountsAfterRoster | src/components/karaoke_queue.tsx:480-494 | song counts stay non-negative through any roster edit |
| Venue.AddSongToCache | src/components/karaoke_queue.tsx:137-148 | a known id leaves the cache unchanged; a new song goes in front and the cache is cut to 100 |
| Venue.MatchingLocal | src/components/karaoke_queue.tsx:152-155 | the matches are exactly the cached songs whose title or channel includes the query, ignoring case; never more than the cache |
| Venue.MatchingLocalAppend | src/components/karaoke_queue.tsx:152-155 | matching keeps cache order and multiplicity: it distributes over concatenation |
| Venue.SearchCachedSongs | src/components/karaoke_queue.tsx:151-156 | exactly min(#matches, 10) results, the first matches in cache order |
| Venue.FilteredIsMatching | src/components/karaoke_queue.tsx:291-299 | the cache viewer's filter equals the match filter, including for the empty query |
| Venue.WithRecheckedSong | src/components/karaoke_queue.tsx:224-230 | the entries for the video get the new verdict; the others are unchanged |
| Venue.WithBatchResults | src/components/karaoke_queue.tsx:249-256 | entries named in the results get their verdict; the others keep theirs |
| Venue.WithoutBlockedSongs | src/components/karaoke_queue.tsx:275-281 | the cache keeps exactly the songs not recorded as unplayable, and never grows |
| Venue.WithoutBlockedSongsAppend | src/components/karaoke_queue.tsx:275-281 | dropping blocked songs keeps cache order and multiplicity: it distributes over concatenation |
| Venue.StaleSongs | src/components/karaoke_queue.tsx:307-312 | the stale songs are exactly those with no verdict or a verdict more than a day old, never more than the cache |
| Venue.StaleSongsAppend | src/components/karaoke_queue.tsx:307-312 | the stale filter keeps cache order and multiplicity: it distributes over concatenation |
| Venue.StaleIds | src/components/karaoke_queue.tsx:317 | the ids submitted are the stale songs' ids, in order |
| Venue.FreshVerdictNotStale | src/components/karaoke_queue.tsx:307-312 | a verdict checked within the last day is not due for a recheck |
| KaraokeQueue.InitializeTables | src/components/karaoke_queue.tsx:86-101 | the loop builds the fresh table collection, whose keys are the roster's numbers |
| KaraokeQueue.CopiedBackTables | src/components/karaoke_queue.tsx:484-492 | after the copy-back has visited a roster prefix, exactly the visited live tables hold their copied state |
| KaraokeQueue.RebuildTables | src/components/karaoke_queue.tsx:480-494 | the rebuilt collection has the roster's numbers, and each table is the one the roster update prescribes |
| KaraokeQueue.KaraokeBar.constructor | src/components/karaoke_queue.tsx:19-103 | the component mounts with the stored cache or the seed songs, the initial roster's fresh tables, a price of 2.00 and a limit of 3; the quota holds |
| KaraokeQueue.KaraokeBar.SyncFromServer | src/components/karaoke_queue.tsx:159-176 | a non-empty server cache replaces the local one |
| KaraokeQueue.KaraokeBar.AddSongToCache | src/components/karaoke_queue.tsx:137-148 | the fields change exactly as the local cache admission prescribes |
| KaraokeQueue.KaraokeBar.RecheckSongAvailability | src/components/karaoke_queue.tsx:216-235 | a successful recheck writes the verdict into the matching entries; a failed one changes nothing |
| KaraokeQueue.KaraokeBar.BatchRecheckAvailability | src/components/karaoke_queue.tsx:237-265 | the submitted ids are the cache's ids in order; a successful reply writes its verdicts; a failed one changes nothing |
| KaraokeQueue.KaraokeBar.ClearBlockedSongs | src/components/karaoke_queue.tsx:267-288 | once the server succeeds, the local cache drops its blocked songs |
| KaraokeQueue.KaraokeBar.RecheckOldSongs | src/components/karaoke_queue.tsx:305-339 | the submitted ids are the stale ids; verdicts are merged only when some were stale and the reply succeeded |
| KaraokeQueue.KaraokeBar.AddToPendingOrders | src/components/karaoke_queue.tsx:352-367 | the fields become the menu-order transition's state; the state stays sound and the song quota is kept |
| KaraokeQueue.KaraokeBar.ReserveSong | src/components/karaoke_queue.tsx:430-465 | the outcome and fields are the reservation transition's, with the current price and limit; the song quota is kept |
| KaraokeQueue.KaraokeBar.ConfirmOrders | src/components/karaoke_queue.tsx:370-409 | the outcome and fields are the confirmation transition's; the state stays sound and the song quota is kept |
| KaraokeQueue.KaraokeBar.ClearPendingOrders | src/components/karaoke_queue.tsx:412-417 | the fields become the clearing transition's state; the song quota is kept |
| KaraokeQueue.KaraokeBar.RequestCheck | src/components/karaoke_queue.tsx:420-429 | the outcome and fields are the check-request transition's; the song quota is kept |
| KaraokeQueue.KaraokeBar.PlayNext | src/components/karaoke_queue.tsx:468-477 | the fields become the queue-consumption transition's state; the song quota is kept |
| KaraokeQueue.KaraokeBar.UpdateTables | src/components/karaoke_queue.tsx:480-494 | the roster and tables become the roster update's |
| KaraokeQueue.KaraokeBar.AddTable | src/components/karaoke_queue.tsx:497-501 | the fields become the add-table transition's state; the state stays sound |
| KaraokeQueue.KaraokeBar.RemoveTable | src/components/karaoke_queue.tsx:504-510 | the outcome and fields are the remove-table transition's; at least one table remains |
| KaraokeQueue.KaraokeBar.UpdateTableOccupancy | src/components/karaoke_queue.tsx:513-518 | the fields become the resize transition's state |
| KaraokeQueue.KaraokeBar.CheckoutTable | src/components/karaoke_queue.tsx:565-612 | the outcome and fields are the checkout transition's; the state stays sound and the song quota is kept |
| KaraokeQueue.KaraokeBar.TransferTable | src/components/karaoke_queue.tsx:615-648 | the outcome and fields are the transfer transition's |
| KaraokeQueue.KaraokeBar.UpdateGroupInfo | src/components/karaoke_queue.tsx:651-663 | the outcome and fields are the group-update transition's; the song quota is kept |

## Left out

- Network and platform calls are parameters, not models. These are `fetch`, googleapis, oEmbed, socket broadcasts, `localStorage`, `alert` and the `setTimeout`/`setInterval` schedule. Each appears as the outcome it produced.
- Express routing, HTTP status codes and the JSON shapes of replies are left out. Each route returns a datatype naming its case.
- The model's query and the cached songs' titles and channels are always strings. In the source the search routes call `toLowerCase` on them, and POST /api/queue stores `title` and `channel` without checking them. A cached song without a string title or channel, or a repeated query parameter (`?q=a&q=b` makes `q` an array), makes that call throw, and the search route's outer handler answers 500. That 500 case is not modelled.
- `Date.now()`, `Math.random()` and ISO timestamps are caller-supplied integers. Confirmed queue entries get the ids `firstId`, `firstId + 1`, and so on.
- Prices and spend are integer cents, not floating point. The song price 2.00 is 200.
- Case-insensitive matching lower-cases ASCII letters only. Unicode case mapping is not modelled.
- EnqueueSong, RecheckCachedSong and the distinct-ids part of `ServerState.Valid` assume each route runs without interruption. In the source, POST /api/queue and the single recheck await the availability checker and then write into the cache without looking again, while other requests may run. Two enqueues of the same uncached song then cache its id twice (`ConcurrentEnqueueDuplicates`). A recheck then writes at an index found before the await: an enqueue in between puts the verdict on a neighbouring song (`RecheckAfterEnqueueHitsNeighbour`), and a deletion can leave the index past the end, so the write throws and the route answers 500 (`RecheckAfterDeleteThrows`). `AdmitAfterAwait` and `RecheckWriteAt` model these writes against a changed cache; the class methods do not.
- A queue item's `id` is supplied by the caller. In the source the posted song's own `id`, which search results carry, overrides the timestamp, so items for the same video can share an id and DELETE /api/queue/:id removes all of them; `WithoutItem` removes every item with the id, as the source's filter does.
- `Promise.allSettled` runs a group's checks concurrently. The model settles them in input order, which gives the same dictionary because results are merged in input order.
- BatchCheckAvailability: the loop index stops at the end of the last group instead of stepping past it. Nothing reads it after the loop.
- The batch merge on the server (`Object.entries(...).forEach`) walks result ids in an unspecified order. Any order gives the same cache because ids are distinct.
- KaraokeQueue.RebuildTables walks the new roster to copy back live tables, not the old table keys. Both visit exactly the numbers present in both.
- An operation on a table number that has no record ends as `NoSuchTable`, with nothing changed. This covers `reserveSong`, `confirmOrders`, `checkoutTable` and `transferTable` to a missing target, where the source fails with a type error. It also covers `requestCheck`, `updateGroupInfo` and `transferTable` from a missing source, where the source would create a partial record; that partial record is not modelled.
- `recheckOldSongs` reads the cache as it was when the schedule was set up. The model reads the current cache.
- An availability verdict always has an integer check time, so the "no check time" case of the stale filter is not modelled separately.
- The server's cached-song `id` field and a queue item's `status` field are not modelled: they always repeat `videoId` and `"queued"`.
- The `maxResults` argument of the search is not modelled. The upstream reply is taken as given.
- The client's own search flow (`searchKaraokeVideos` in the component) is left out. It only chains the server search, the server cache search and the local cache search, which are modelled.
- Menu editing (price, stock, adding and removing items) is not modelled, and neither is changing the song price or limit from the settings screen. The class keeps both settings fixed.
- The component never changes its current table: `setCurrentTable` is never called, so every guest operation acts on table 1. The model takes the table number as a parameter of the guest operations, which covers table 1 and generalises to any table.
- Venue.TransferCanBreakQuota records behaviour, not a repair. The model keeps the source's transfer, which does not move pending orders, so the quota invariant is proved for every other operation only.
