# File upload service: a verified model

The service accepts PDF and image uploads, processes them in the background, keeps the text of every PDF page,
lets a user edit that text, and tells the user's browsers over WebSockets when a file is done. This project models
five of its parts in Dafny and proves what they keep, and when exactly they deliver what they promise.

| part | files | main results |
|---|---|---|
| PDF text extraction | `Matrix`, `ContentStream`, `ContentStreamLaws`, `Operators`, `FormWalk`, `SortSlice`, `ReadingOrder`, `Lines`, `LineSpacing`, `BandRecovery` | moving a page by an affine map moves every extracted chunk by it, through any tree of forms; every form is visited once, nested ones first; `q ... Q` blocks restore; a string stands where the numbers before it say, in the font last chosen; no chunk is lost whatever the sort does; exactly when the sort is well defined; the grouping threshold is half the upper median of the line distances; a page that has lines is read back line by line |
| Page text blob | `GoStrings`, `PageCodec`, `CodecRoundTrip`, `WordCount`, `PageEdit`, `EditFrame`, `OtherPages` | writing pages to a blob and reading them back, and editing one page, succeed exactly under a condition a caller can check; two such safe edits commute exactly when neither text hides an opening; exactly when an edit leaves the other pages untouched; exactly when a PDF's extracted pages are read back under their numbers; the word count is exact |
| Job pipeline | `Domain`, `Pipeline`, `PipelineInvariant`, `PipelineMoves`, `PipelineOutcome`, `PipelinePool`, `PipelineProgress`, `PipelineDrain`, `PipelineRecovery`, `PipelineWitness`, `Attempt`, `AttemptOutcome`, `AttemptEffects`, `JobChannel`, `FileRows`, `Sinks`, `Backend` | every accepted file is in exactly one place in every reachable state; terminal rows are never rewritten; every outcome at rest is classified; every trace an attempt leaves, call by call; exactly when a late failure dooms its file; a measure bounds every run; the pool's bounds; closing drains the channel on every run |
| Rate limiter | `RateLimit`, `RateConformance` | dropping idle entries cannot be observed, and the window bound holds, exactly when ten minutes refill a bucket; then a user is never refused exactly when the requests keep to the burst and the rate |
| WebSocket hub | `Hub`, `HubDelivery` | the shared index and buffers refine one independent mailbox per connection; over the life of a connection its user's messages are delivered in order; channels in the index are open exactly when registrations are taken before unregistrations, and the loop crashes exactly when it takes a message for a user who has a connection taken the other way round |

`Sequences` holds facts about sequences that the others share. `dafny verify dfyconfig.toml` checks the whole project.

## How the model is built

* Code that updates variables or fields is imperative here too: `ContentStream.Interpreter`, `PageEdit.FileService`,
  `RateLimit.RateLimiter`, `Hub.HubLoop`, `JobChannel.JobQueue`, `FileRows.FileRepo`, `Sinks.DeadLetter` and
  `Backend.Service` are classes, and the loops of `mul`, `chunksToText`, `lineGroupThreshold`, `ParsePages`,
  `extractText`, `UpdatePage`, `cleanupLoop` and `dispatch` are loops. Each method is proved against a function of
  its inputs or of the old state, and the laws are proved about that function.
* The pipeline is a transition system, `Pipeline.State` with `Pipeline.Apply`. Each call to the database, the object
  store or the file system is one atomic step that succeeds or fails as the run says; goroutines, timers and
  dispatchers interleave freely. `Backend.Service` follows the code statement by statement, with a ghost copy of
  that state that every method is proved to take along steps of the system, so what is proved of runs holds of it.
* The store keeps each row's type (from the file name) apart from the job's type (from the detected content).
* A panic inside `doProcess` is recovered with an unnamed result, so `Process` sees no error. Such a file counts as
  abandoned.
* The database writes `UpdateError` and `IncrementRetry` and the dead-letter insert are taken to succeed: the code
  ignores their errors. A commit that fails is taken not to have happened.
* Text is a sequence of code points, coordinates and rates are real numbers, times are seconds.

## Where the code and its documentation differ

The model follows the code.

* The comment at `backend/internal/worker/processor.go:83` and `backend/GUIDE.md:508` announce delays of 2, 4 and 8
  seconds. The third failure dead-letters the job, so 8 never occurs: `PipelineProgress.AttemptsBounded`.
* `backend/GUIDE.md:480-514` has a row go from pending through processing to error. Three failures to lock it take
  it there directly: `PipelineWitness.PendingToError` is such a run, and `PipelineOutcome.ErrorFromPendingIff` says exactly
  when it happens. `PipelineOutcome.StepStatus` states the transitions that do occur.
* `backend/internal/services/file.go:152` has an edit replace the text of one page, "leaving other pages untouched".
  Both halves together, the page becoming the trimmed text and all others staying, hold for exactly the edits of
  `EditFrame.EditSafe` (`EditFrame.EditFrameExact`). The second half alone holds for exactly the edits
  of `OtherPages.LeavesOthers` (`OtherPages.OthersUntouchedExactly`): the safe ones and others, such as that of
  `OtherPages.CutTextLeavesOthers`. `OtherPages.MarkerMovesOthers` is an edit for which it fails. `EditFrame.EditsCommute`
  says exactly when the order of two safe edits matters.
* The hub expects a registration before its unregistration, but they travel on separate channels and `select` may
  take them in either order. `HubDelivery.BackwardsCanPanic` is a run that crashes, and
  `HubDelivery.RunPanicsExactly` says which runs do.
* Eviction of idle rate limiters changes decisions when a burst takes longer than ten minutes to refill:
  `RateLimit.EvictionObservable`.
* The sort's comparator is not transitive on all pages: `ReadingOrder.ComparatorCanCycle` is one on which it
  cycles, and `BandRecovery.ComparatorIsOrderExactly` is the exact condition on a page for the sort to be well
  defined.
* A save that fails after the upload might be expected to be retried, or always to end in the dead-letter log.
  `PipelineRecovery.LateFailureDoomsExactly` says which: the file is lost to the log exactly when its tmp file is
  gone or no attempt is left.

## Model

| member | source | states |
|---|---|---|
| Matrix.Mul | backend/internal/worker/pdf.go:64-74 | the triple loop computes the matrix product |
| Matrix.TimesAssociative | backend/internal/worker/pdf.go:64-74 | `mul` is associative |
| Matrix.AffineClosed | backend/internal/worker/pdf.go:60-74 | products of matrices with third column 0, 0, 1 have that column |
| Matrix.PointFollows | backend/internal/worker/pdf.go:76-78 | the point of m times n is the point of m mapped by n, n's affine form |
| Matrix.ShiftsAdd | backend/internal/worker/pdf.go:219-231 | a shift after a shift is the shift by the sum |
| ContentStream.Interpreter.AddText | backend/internal/worker/pdf.go:164-173 | appends one chunk at the origin of Tm times CTM, or nothing when the text decodes to nothing |
| ContentStream.Interpreter.NextLine | backend/internal/worker/pdf.go:219-231 | moves both text matrices by the shift, on the line matrix |
| ContentStream.Interpreter.ShowArray | backend/internal/worker/pdf.go:251-260 | the strings of a TJ array are shown in order, its numbers are skipped |
| ContentStream.Interpreter.Do | backend/internal/worker/pdf.go:175-262 | one operator with its operands takes the interpreter from its state to the stack machine's next state |
| ContentStream.InterpretForChunks | backend/internal/worker/pdf.go:152-265 | a whole stream yields the stack machine's chunks |
| ContentStream.CollectXObjectChunks | backend/internal/worker/pdf.go:124-150 | a resource tree yields the specification's chunks, of which `FormWalk` says what they are |
| ContentStreamLaws.StreamEquivariant | backend/internal/worker/pdf.go:154-265 | for every stream, an affine parent CTM multiplied by any n gives the same texts in the same order with every position mapped by n |
| ContentStreamLaws.TreeEquivariant | backend/internal/worker/pdf.go:125-150 | the same for every finite XObject tree |
| ContentStreamLaws.CmConcatenates | backend/internal/worker/pdf.go:55-62 | a stream that opens with `a b c d e f cm` shows the rest mapped first by (x a + y c + e, x b + y d + f) and then by the parent |
| ContentStreamLaws.StackGrows | backend/internal/worker/pdf.go:183-189 | on a well-nested stream the stack grows by saves minus restores over the stack found, and chunks are only added |
| ContentStreamLaws.BlockRestores | backend/internal/worker/pdf.go:183-196 | a balanced well-nested q ... Q block gives back the CTM and the stack (ISO 32000-1 section 8.4.2) |
| ContentStreamLaws.UnmatchedRestoresDropOut | backend/internal/worker/pdf.go:183-189 | every stream shows what it shows without the Qs that have nothing to restore, and without them it is well nested |
| ContentStreamLaws.RelativeRun | backend/internal/worker/pdf.go:219-260 | a run of Td, TD, T*, ' and " leaves the text matrix where one shift by the summed offsets would, and the CTM alone |
| ContentStreamLaws.TextPlacement | backend/internal/worker/pdf.go:198-246 | after BT or Tm and such a run, the next string stands at the summed offset (T* counts as 12 down) taken through the numbers of the Tm and of the CTM, and is left out when it decodes to nothing (ISO 32000-1 section 9.4.2) |
| Operators.Exchange | backend/internal/worker/pdf.go:175-262 | operator lists equal from every state may be exchanged in the middle of any stream |
| Operators.ArrayIsItsStrings | backend/internal/worker/pdf.go:251-260 | TJ runs as one Tj for each string of its array, in order (ISO 32000-1 section 9.4.3, without the numbers) |
| Operators.QuotesAreNextLineAndShow | backend/internal/worker/pdf.go:237-250 | ' runs as T* and then Tj of its operand, " as T* and then Tj of its third |
| Operators.ShowsOneChunk | backend/internal/worker/pdf.go:164-173 | Tj adds one chunk where the text matrix and the CTM take the origin, or none for empty text, and changes nothing else |
| Operators.FontInForce | backend/internal/worker/pdf.go:202-209 | until the next selection a string is decoded by the font last selected, or kept as it is when the form has no font of that name |
| Operators.LeavesAlone | backend/internal/worker/pdf.go:182-261 | which operators leave the CTM, its stack, the text matrices, the font or the chunks alone; an unknown one, or one with the wrong number of operands, leaves everything |
| Operators.WrongKindIsZero | backend/internal/worker/pdf.go:190-260 | an operand of the wrong kind counts as 0, the empty string, name or array |
| Operators.MovesAlike | backend/internal/worker/pdf.go:198-231 | T* is 0 -12 Td, TD is Td, and BT is the identity Tm |
| Operators.MovesAdd | backend/internal/worker/pdf.go:219-225 | two moves are one by the sums |
| Operators.SaveRestore | backend/internal/worker/pdf.go:183-189 | q Q leaves everything as it was, and so does a Q with nothing saved |
| Operators.StartsAtOrigin | backend/internal/worker/pdf.go:158-162 | a stream starts as if a text object had just begun, and keeps strings as they are until it selects a font |
| Operators.CmMaps | backend/internal/worker/pdf.go:190-196 | from any state, what follows a cm is mapped by its numbers and then as before |
| Operators.PlacedInNumbers | backend/internal/worker/pdf.go:152-265 | under a cm, in a chosen font, after BT or Tm and a run of moves, a string adds one chunk: its text decoded by that font, its place computed from the numbers alone |
| FormWalk.EveryFormOnce | backend/internal/worker/pdf.go:125-150 | the text of a form tree is, form by form and each once, that of every form reached through forms at any depth, nested forms before their holder, siblings in key order, and nothing else |
| FormWalk.StretchOfForm | backend/internal/worker/pdf.go:125-150 | each form's own chunks are one stretch of it, between those of the forms visited before and after |
| FormWalk.EarlierIsStrict | backend/internal/worker/pdf.go:132-147 | of two forms one is visited before the other, so there is one such order |
| FormWalk.NestedEarlier | backend/internal/worker/pdf.go:138-146 | what is nested in a form is visited before it |
| FormWalk.SiblingsInKeyOrder | backend/internal/worker/pdf.go:132-147 | a sibling and all in it is visited before the next sibling and all in that |
| SortSlice.InsertionSort | backend/internal/worker/pdf.go:283-289 | the array is a permutation of what it was, and sorted when the comparator is a strict weak order on it |
| SortSlice.LocallySortedIsSorted | backend/internal/worker/pdf.go:283-289 | for a strict weak order, neighbours in order mean all pairs in order |
| ReadingOrder.YDirection | backend/internal/worker/pdf.go:338-361 | the direction is decided by the extreme ys alone |
| ReadingOrder.YDirectionUnique | backend/internal/worker/pdf.go:338-361 | that decides one direction for every page |
| ReadingOrder.DirectionOverChunks | backend/internal/worker/pdf.go:338-361 | ascending exactly when all chunks stand at one height, or none stands below zero and one stands more than eleven times as high as another |
| ReadingOrder.ComparatorCanCycle | backend/internal/worker/pdf.go:283-289 | a page of three chunks on which the tolerance comparator is not transitive in the direction the code chooses for it |
| ReadingOrder.SortReals | backend/internal/worker/pdf.go:378-378 | sorts the ys |
| ReadingOrder.CollectYs | backend/internal/worker/pdf.go:369-377 | the first y of each tenth of a point |
| ReadingOrder.CollectGaps | backend/internal/worker/pdf.go:383-389 | the distances over half a point between neighbours |
| ReadingOrder.LineGroupThreshold | backend/internal/worker/pdf.go:364-401 | computes the threshold of the specification, of which `LineSpacing` says what it is |
| LineSpacing.ThresholdIsHalfMedian | backend/internal/worker/pdf.go:364-401 | for every page: of the distances over half a point between neighbouring baselines, m being one with at most half of them below it and more than half at most it, the threshold is the larger of 4 and m / 2; without such a distance it is 10 |
| LineSpacing.UpperMedianUnique | backend/internal/worker/pdf.go:393-394 | there is one such m |
| LineSpacing.BaselinesExist | backend/internal/worker/pdf.go:367-378 | every page has its baselines: in ascending order, the ys of the chunks that come first in their tenth of a point |
| LineSpacing.EvenThreshold | backend/internal/worker/pdf.go:364-401 | lines exactly g apart, for g over half a point, are cut at the larger of 4 and g / 2 |
| ReadingOrder.GroupLines | backend/internal/worker/pdf.go:291-304 | groups greedily by the distance to the last line's anchor |
| ReadingOrder.PrintLines | backend/internal/worker/pdf.go:306-333 | the printed lines hold the grouped chunks, each line in order of x, and the text is their rendering |
| ReadingOrder.ChunksToText | backend/internal/worker/pdf.go:272-334 | the result prints an arrangement of the page: direction, sort, threshold, grouping, order within lines; a page without chunks prints nothing |
| Lines.ChunksConserved | backend/internal/worker/pdf.go:283-331 | on every page, cycles included: no chunk is lost or added, of two chunks in a line the earlier one is not further right, each line stays within the threshold of its anchor, neighbouring anchors are further apart than the threshold |
| Lines.GroupKeepsOrder | backend/internal/worker/pdf.go:291-304 | grouping cuts the sorted page into lines without reordering it |
| Lines.GroupAnchored | backend/internal/worker/pdf.go:297-304 | a line's anchor is the y of its first chunk |
| Lines.LinesJoin | backend/internal/worker/pdf.go:306-319 | in the printed page two newlines stand between neighbouring lines exactly when their anchors are more than 3.0 thresholds apart, and one otherwise |
| Lines.LinePrints | backend/internal/worker/pdf.go:325-330 | a line by itself prints the texts of its chunks one after the other with nothing between |
| Lines.ThresholdAtLeastTolerance | backend/internal/worker/pdf.go:395-400 | the threshold is never below 4 |
| Lines.RenderAddsOnlyBreaks | backend/internal/worker/pdf.go:306-333 | printing adds newlines only: one per neighbouring pair and one more per gap over three thresholds |
| BandRecovery.ComparatorIsOrderExactly | backend/internal/worker/pdf.go:283-289 | on any page the comparator is a strict weak order if and only if, whenever a chunk is level with two that are not level with each other, x tells it from one of them in reading order |
| BandRecovery.ComparatorIsOrder | backend/internal/worker/pdf.go:283-289 | on pages made of bands flatter than 4 and further apart than the threshold the comparator is a strict weak order |
| BandRecovery.GroupingFindsBands | backend/internal/worker/pdf.go:283-304 | grouping such a page, sorted, finds exactly its bands, in order |
| BandRecovery.ReadingOrderRecovered | backend/internal/worker/pdf.go:283-331 | for every banded page the printed lines are the bands, one for one, in reading order, each with its xs ascending |
| BandRecovery.ThresholdBelowGap | backend/internal/worker/pdf.go:364-401 | when neighbouring baselines are between g and 2g apart, g over 4, the threshold is below g |
| BandRecovery.EvenlySetIsBanded | backend/internal/worker/pdf.go:283-304 | so an evenly set page satisfies the band hypothesis with the threshold the code computes |
| BandRecovery.EvenPageRecovered | backend/internal/worker/pdf.go:283-401 | and is read back line by line, each with its xs ascending |
| GoStrings.ScanPrinted | backend/internal/worker/pdf.go:451-452 | a printed page number scans back to itself |
| GoStrings.ScanAround | backend/internal/worker/pdf.go:451-452 | scanning a page number skips blanks, takes a sign and the digits, and stops at whatever follows; a number that does not fit a machine int leaves 0 |
| GoStrings.ScanNothing | backend/internal/worker/pdf.go:451-452 | without a digit at the front, a sign apart, the page number is 0 |
| PageCodec.JoinPages | backend/internal/worker/pdf.go:423-433 | joins the pages with `\n\n[PAGE k]\n\n` |
| PageCodec.AddPart | backend/internal/worker/pdf.go:447-454 | one more page, or none when the part has no bracket |
| PageCodec.ParsePages | backend/internal/worker/pdf.go:436-457 | splits at the leftmost separators, cuts at the first bracket, scans the number, trims, and drops parts without a bracket |
| CodecRoundTrip.RoundTrip | backend/internal/worker/pdf.go:423-457 | reading back gives the same page numbers in order with each text trimmed if and only if the pages are faithful: the first is numbered 1 and has no separator, no later text has one even behind two newlines, and they are not one empty page |
| CodecRoundTrip.BlobGrows | backend/internal/worker/pdf.go:423-433 | each page after the first is appended as two newlines, `[PAGE n]` with n in base ten, two newlines and its text |
| CodecRoundTrip.PageReadBack | backend/internal/worker/pdf.go:423-457 | a later page behind clean pages is read back in its place, and whole if and only if it is clean itself, whatever follows |
| CodecRoundTrip.LoneEmptyPageLost | backend/internal/worker/pdf.go:436-439 | one empty page reads back as no pages |
| CodecRoundTrip.SeparatorOverlapsNothing | backend/internal/worker/pdf.go:440-440 | two occurrences of the separator never overlap |
| WordCount.FieldsJoin | backend/internal/worker/pdf.go:31-31 | the fields of a concatenation are the fields of both parts when blank meets the seam |
| WordCount.BlobFields | backend/internal/worker/pdf.go:31-31 | the blob's fields are the pages' fields with `[PAGE` and `k]` at each break |
| WordCount.BlobWordCount | backend/internal/worker/pdf.go:30-40 | the blob's count is the sum over the pages plus exactly 2 per page break |
| WordCount.TrimRightNewlines | backend/internal/worker/pdf.go:99-99 | the stored text is the page's text without its trailing newlines, all of them and nothing else |
| WordCount.ExtractedReadBack | backend/internal/worker/pdf.go:97-101 | from a PDF's pages to the blob and back, page i comes back under number i + 1 with its text trimmed, for all pages, if and only if no text has a separator, counting the two newlines before a later page, and the file is not one page of newlines |
| WordCount.ProcessPDF | backend/internal/worker/pdf.go:24-40 | fails exactly when the page count does; the stored text reads back as said, and the word count is that of all pages plus 2 per page break |
| PageEdit.FileService.GetByID | backend/internal/services/file.go:68-80 | the row, or the one error that applies: a failed read, not found, or forbidden |
| PageEdit.FileService.GetPages | backend/internal/services/file.go:129-150 | succeeds if and only if the row can be read and is there, the caller's own, a PDF and done; then gives its parsed pages, and otherwise the first refusal that applies |
| PageEdit.FileService.UpdatePage | backend/internal/services/file.go:153-187 | succeeds if and only if, besides, the text has an entry with that page number and the write succeeds; then the row's text is the edited blob and nothing else changes; otherwise the refusals come in order and nothing changes |
| EditFrame.EditFrameExact | backend/internal/services/file.go:165-186 | after editing page k the pages are the old ones with the first entry numbered k set to the trimmed text if and only if the edit is safe: separator-free in its place, no other later page opens like a marker, not one empty page |
| EditFrame.EditUnseen | backend/internal/services/file.go:165-186 | a reader sees no change from a safe edit if and only if there is no such page or it had that text already |
| OtherPages.OthersUntouchedExactly | backend/internal/services/file.go:152-186 | after an edit every other entry is the one it was, in its place, if and only if no other later page opens like a marker, nothing behind a separator in the new text has a bracket, and the file does not become one empty page |
| OtherPages.SafeLeavesOthers | backend/internal/services/file.go:152-186 | a safe edit leaves the others |
| OtherPages.MarkerMovesOthers | backend/internal/services/file.go:152-186 | in every file, a first page text with a marker and a bracket in it moves the others |
| OtherPages.CutTextLeavesOthers | backend/internal/services/file.go:152-186 | an unsafe edit, which cuts its own text short, that leaves the others |
| OtherPages.SplitJoined | backend/internal/worker/pdf.go:440-440 | splitting what was joined with the separator gives the parts of both sides |
| EditFrame.InOrder | backend/internal/services/file.go:165-186 | a second safe edit takes effect exactly when the first text does not come to open like a marker once trimmed |
| EditFrame.EditsCommute | backend/internal/services/file.go:165-186 | two safe edits of different pages have one outcome in either order if and only if neither trimmed text opens like a marker, and that outcome has both texts in place |
| EditFrame.HiddenOpeningBreaksOrder | backend/internal/services/file.go:165-186 | a text with a blank before the opening makes the order matter |
| RateLimit.RateLimiter.Get | backend/internal/middleware/ratelimit.go:48-59 | finds or creates the user's bucket and marks it seen |
| RateLimit.RateLimiter.Middleware | backend/internal/middleware/ratelimit.go:63-76 | 401 without a user; otherwise passes exactly when the bucket holds a token, and takes it |
| RateLimit.RateLimiter.Cleanup | backend/internal/middleware/ratelimit.go:34-46 | drops exactly the entries idle for over ten minutes |
| RateLimit.EvictionUnobservable | backend/internal/middleware/ratelimit.go:34-59 | when ten minutes refill a bucket, every request of every run is decided as if nothing were ever dropped |
| RateLimit.EvictionObservable | backend/internal/middleware/ratelimit.go:34-59 | and otherwise a run of one user, with the cleanup loop's first three rounds on time, tells the two apart |
| RateLimit.WindowBound | backend/vendor/golang.org/x/time/rate/rate.go:337-400 | when ten minutes refill a bucket, in any stretch of at most d seconds a user passes at most burst + rate times d times |
| RateLimit.WindowExceeded | backend/internal/middleware/ratelimit.go:34-59 | and otherwise the same run lets a user through more often than that |
| RateConformance.ConformingNeverRefused | backend/internal/middleware/ratelimit.go:63-76 | a user whose requests number at most burst + rate times the time between in every window is never refused, whether idle entries are dropped or not |
| RateConformance.NeverRefusedExactly | backend/internal/middleware/ratelimit.go:63-76 | when ten minutes refill a bucket, a user is never refused on a run if and only if the requests do so |
| Hub.HubLoop.OnRegister | backend/internal/notification/ws/hub.go:44-51 | takes the oldest registration and indexes it |
| Hub.HubLoop.OnUnregister | backend/internal/notification/ws/hub.go:53-63 | takes the oldest unregistration, unindexes it, leaves no empty set, closes the channel |
| Hub.HubLoop.OfferAll | backend/internal/notification/ws/hub.go:69-75 | offers a payload to each connection, and crashes if and only if one of them has a closed channel |
| Hub.HubLoop.OnBroadcast | backend/internal/notification/ws/hub.go:65-75 | offers the oldest message to each connection of its user and drops it where the buffer is full |
| Hub.HubLoop.Send | backend/internal/notification/ws/hub.go:85-91 | queues the message or drops it when the channel is full |
| Hub.HubLoop.Register | backend/internal/notification/ws/hub.go:93-95 | queues the registration |
| Hub.HubLoop.Unregister | backend/internal/notification/ws/hub.go:97-99 | queues the unregistration |
| HubDelivery.HubRefinesMailboxes | backend/internal/notification/ws/hub.go:41-91 | along every run the index and the buffers hold what each connection would hold on its own, and no user maps to an empty set |
| HubDelivery.DeliveredInOrder | backend/internal/notification/ws/hub.go:69-75 | what is put in a buffer is an order-preserving part of what the user was sent, short by exactly the messages that met a full buffer |
| HubDelivery.LogIsWindow | backend/internal/notification/ws/hub.go:44-75 | what a connection is offered is its user's messages taken since its registration |
| HubDelivery.MailboxCounts | backend/internal/notification/ws/hub.go:65-75 | a connection's own account agrees with the hub on what was read and on how many messages met a full buffer |
| HubDelivery.NothingAfterwards | backend/internal/notification/ws/hub.go:53-75 | after its unregistration it is offered nothing |
| HubDelivery.BroadcastInOrder | backend/internal/notification/ws/hub.go:65-91 | messages are taken in the order in which Send accepted them, and none is lost |
| HubDelivery.Delivery | backend/internal/notification/ws/hub.go:41-91 | over the life of a connection in any run, what has been read from its buffer and then what waits there is in order what the loop took for its user between taking its registration and its unregistration, short by exactly the messages taken while 256 were waiting |
| HubDelivery.SentToBuffer | backend/internal/notification/ws/hub.go:41-91 | from end to end: that is its user's part of one stretch of the messages Send accepted, the stretch that follows what was taken before the registration |
| HubDelivery.TakenOnce | backend/internal/notification/ws/handler.go:29-33 | each connection's registration and unregistration are taken at most once |
| HubDelivery.ClosedExactly | backend/internal/notification/ws/hub.go:53-62 | a channel is closed exactly when its unregistration has been taken; of a connection that has left, either that still waits or the channel is closed |
| HubDelivery.ChannelsOpenExactly | backend/internal/notification/ws/hub.go:41-63 | every indexed connection has an open channel if and only if no registration was taken after its unregistration |
| HubDelivery.InOrderNeverPanics | backend/internal/notification/ws/hub.go:41-81 | in that order nothing is sent on or closed again after a close |
| HubDelivery.PanicsExactly | backend/internal/notification/ws/hub.go:41-81 | a step crashes the loop if and only if it takes a message for a user with a connection whose registration was taken after its unregistration |
| HubDelivery.RunPanicsExactly | backend/internal/notification/ws/hub.go:41-81 | a run has crashed if and only if it has taken such a message |
| HubDelivery.BackwardsCanPanic | backend/internal/notification/ws/handler.go:29-33 | the other order has a run that sends on a closed channel |
| PipelineInvariant.StepKeepsFiles | backend/internal/worker/processor.go:64-195 | every step keeps all files sound: one place each, and row, object, tmp file, attempts and delays as that place demands |
| PipelineInvariant.RunKeepsFiles | backend/internal/worker/processor.go:64-195 | so does every run |
| PipelineMoves.StepMoves | backend/internal/worker/pool.go:53-83 | a step takes at most one file from one place to one place, and leaves all others |
| PipelineOutcome.ExactlyOnePlace | backend/internal/worker/processor.go:64-95 | in every reachable state a file is accepted if and only if it is in the channel, a hand, a goroutine, a timer, finished, abandoned or dead-lettered, and it is never in two places |
| PipelineOutcome.StepStatus | backend/internal/worker/processor.go:116-128 | a step never rewrites a terminal row nor any row's owner and type, and statuses change only forward |
| PipelineOutcome.TerminalForever | backend/internal/repo/file.go:75-102 | along every run a done or failed row stays as it is, although the writes are unconditional |
| PipelineOutcome.ErrorFromPendingIff | backend/internal/worker/processor.go:75-128 | on every run, giving up takes a row to error from pending if and only if none of its attempts locked it, and from processing otherwise |
| PipelineWitness.PendingToError | backend/internal/worker/processor.go:97-128 | a run on which a row goes from pending to error without processing |
| PipelineOutcome.LiveRowNotTerminal | backend/internal/worker/processor.go:116-181 | a live job's row is terminal only between the save and the return |
| PipelineOutcome.GuardNeverFires | backend/internal/worker/processor.go:115-119 | the guard against processing a finished file is never needed |
| PipelineOutcome.OneEventPerFile | backend/internal/worker/processor.go:75-81 | at most one event per file is queued, file.processed only for a done row and file.error only for one in error |
| PipelineOutcome.AcceptedFilesSettled | backend/internal/worker/processor.go:75-93 | at rest every accepted file is abandoned, or done with its object stored under the uploader, the file and the uploaded job's type, or dead-lettered exactly once, under its owner and with count and status as the reason says |
| PipelineOutcome.UnfinishedRowsExplained | backend/internal/handlers/upload.go:139-144 | at rest a row is pending or processing if and only if its upload was rejected, a retry met a full queue, or a panic abandoned it |
| PipelineOutcome.TmpFileKept | backend/internal/worker/processor.go:143-181 | a live job has its tmp file until the removal, unless an earlier save failed after the upload, and then its object is stored |
| PipelineOutcome.LateFailureDeadLetters | backend/internal/worker/processor.go:175-181 | once a save fails with the tmp file gone or no attempt left, every continuation without panics that comes to rest has dead-lettered the job, with its object stored |
| PipelineRecovery.LateFailureDoomsExactly | backend/internal/worker/processor.go:71-93 | in every reachable state before shutdown, a save that fails has every continuation without panics that comes to rest dead-letter the job if and only if the tmp file is gone or this was the last attempt; some continuation does come to rest |
| PipelineRecovery.Recovers | backend/internal/worker/processor.go:83-93 | from any failed attempt that has its tmp file and another attempt left, a continuation ends with the file done |
| PipelineWitness.LateFailureMadeGood | backend/internal/worker/processor.go:175-181 | a run from the start on which the removal and the save fail and the next attempt finishes the file |
| PipelinePool.StepKeepsPool | backend/internal/worker/pool.go:53-83 | every step keeps the token count exact |
| PipelinePool.PoolBound | backend/internal/worker/pool.go:28-35 | tokens equal running jobs, plus returned ones yet to release, plus dispatchers about to spawn; at most `workerCount` run, at most twice as many are received and unfinished, at most the queue size more wait |
| PipelineProgress.StepDecreases | backend/internal/worker/processor.go:73-93 | every step but a new upload strictly decreases a measure of remaining attempts and stages |
| PipelineProgress.RunIsBounded | backend/internal/worker/processor.go:73-93 | no run is longer than the measure it starts with and a fixed amount per upload |
| PipelineProgress.NoDeadlock | backend/internal/worker/pool.go:53-83 | with a worker and before shutdown, a state that is not at rest can take a step |
| PipelineProgress.EveryRunSettles | backend/internal/worker/processor.go:64-95 | once uploads stop, every run ends within the measure, and a run that cannot go on is at rest |
| PipelineProgress.AttemptsBounded | backend/internal/worker/processor.go:21-93 | at most three attempts; as many delays as the row counts retries, the first of two seconds and the second of four |
| PipelineDrain.StepFlows | backend/internal/queue/job_queue.go:23-40 | once the channel is closed, how often a file is spawned, in hand or waiting does not change in total |
| PipelineDrain.DrainOnClose | backend/internal/worker/pool.go:37-51 | when every dispatcher has exited the channel is empty, and each job that was waiting at the close has been handed to Process exactly once |
| PipelineDrain.EveryRunDrains | backend/internal/worker/pool.go:47-64 | after a close every run without uploads ends within the measure, and one that can go on no further has every dispatcher exited, the channel empty and nothing running |
| PipelineDrain.WaitReturns | backend/internal/worker/pool.go:47-64 | a closed pool has a run to that state |
| Attempt.AttemptIsRun | backend/internal/worker/processor.go:64-195 | what Process does is a run of the transition system |
| AttemptOutcome.DoneIffAllSucceed | backend/internal/worker/processor.go:97-195 | an attempt leaves the row done if and only if nothing panicked, the row was locked and marked, the tmp file was there, and the work, the upload and the save succeeded |
| AttemptEffects.EffectsOfAttempt | backend/internal/worker/processor.go:64-195 | an attempt writes the row, stores the object, removes the tmp file, queues file.processed or file.error, finishes, abandons, retries or dead-letters the file exactly as the outcome of its calls says |
| AttemptEffects.OutlookSpelledOut | backend/internal/worker/processor.go:97-195 | that outcome, in terms of which calls succeed and where a panic strikes |
| JobChannel.JobQueue.Enqueue | backend/internal/queue/job_queue.go:21-30 | appends, or refuses exactly when the buffer is full |
| JobChannel.JobQueue.Receive | backend/internal/worker/pool.go:59-63 | the oldest job, or nothing exactly when the channel is closed and empty |
| JobChannel.JobQueue.Close | backend/internal/queue/job_queue.go:37-40 | closes the channel and keeps what is in it |
| FileRows.FileRepo.FindByIDForUpdate | backend/internal/repo/file.go:33-43 | the row, or an error when it is missing or the call fails |
| FileRows.FileRepo.Create | backend/internal/repo/file.go:20-22 | adds one row, or nothing when the write fails |
| FileRows.FileRepo.MarkProcessing | backend/internal/worker/processor.go:121-128 | sets one row to processing, or changes nothing when the write or the commit fails |
| FileRows.FileRepo.UpdateDone | backend/internal/repo/file.go:75-85 | sets status and storage path of one row and no other, whatever its status |
| FileRows.FileRepo.UpdateError | backend/internal/repo/file.go:94-102 | sets the status of one row and no other |
| FileRows.FileRepo.IncrementRetry | backend/internal/repo/file.go:104-109 | adds one to one row's count and touches no other |
| Sinks.DeadLetter.Save | backend/internal/worker/deadletter.go:31-42 | appends one entry |
| Sinks.ObjectStore.PutFile | backend/internal/worker/processor.go:171-173 | stores the object exactly when the file can be read and the upload succeeds |
| Backend.Service.Upload | backend/internal/handlers/upload.go:116-149 | 202 with the job queued, 503 with the row left pending and no job, or 500 with nothing changed; the two steps of the system otherwise |
| Backend.Service.LockRow | backend/internal/worker/processor.go:98-128 | locked and set to processing, found final, or failed, with the system's step for each |
| Backend.Service.DoWork | backend/internal/worker/processor.go:143-161 | succeeds only with the tmp file there |
| Backend.Service.PutObject | backend/internal/worker/processor.go:163-173 | on success adds just the object keyed by the job's user, file and type, on failure none |
| Backend.Service.RemoveTmpFile | backend/internal/worker/processor.go:175-176 | goes on whether or not the removal succeeds |
| Backend.Service.SaveRow | backend/internal/worker/processor.go:178-181 | the row is done with that key as its storage path, or the attempt has failed |
| Backend.Service.NotifyDone | backend/internal/worker/processor.go:183-194 | queues file.processed if there is room and returns |
| Backend.Service.Recover | backend/internal/worker/processor.go:103-107 | a panic ends the attempt without an error |
| Backend.Service.DoProcess | backend/internal/worker/processor.go:97-195 | takes the system from the goroutine's start to its return, and reports failure exactly when the attempt failed without a panic |
| Backend.Service.Process | backend/internal/worker/processor.go:64-95 | one attempt and its retry or dead letter, as a whole |
| Backend.Service.GiveUp | backend/internal/worker/processor.go:75-81 | dead-letters the job, sets the row to error and queues file.error if there is room |
| Backend.Service.ScheduleRetry | backend/internal/worker/processor.go:83-93 | counts the retry and starts its timer |
| Backend.Service.TimerFires | backend/internal/worker/processor.go:88-93 | queues the retry when there is room, or else dead-letters it under its owner, and leaves the rows alone |
| Backend.Service.Receive | backend/internal/worker/pool.go:59-63 | a dispatcher takes the oldest job, or exits exactly when the channel is closed and empty |
| Backend.Service.AcquireSlot | backend/internal/worker/pool.go:65-71 | takes a free slot |
| Backend.Service.Go | backend/internal/worker/pool.go:73-81 | starts the job's goroutine and frees the dispatcher |
| Backend.Service.ReleaseSlot | backend/internal/worker/pool.go:74-75 | gives the slot back after Process has returned |
| Backend.Service.RunJob | backend/internal/worker/pool.go:65-81 | a slot, a goroutine and its whole attempt, as a run of the system |
| Backend.Service.Dispatch | backend/internal/worker/pool.go:53-84 | a lone dispatcher on a closed channel hands over every waiting job, oldest first, and exits, by a run of the system |

## Left out

- Floating point: coordinates and rates are real numbers; rounding, infinities and the wrap of `int64(c.y * 10)` for huge ys are not modelled.
- SortSlice.InsertionSort: stands for `sort.Slice`; beyond its own order among ties nothing else relies on the algorithm, only on permutation and on sortedness under a strict weak order.
- ContentStream.CollectXObjectChunks: takes the decoded operations and a finite tree of forms; the PDF parser, font decoding, `GetPlainText`, and a form graph with a cycle (on which the code does not stop) are outside.
- Form matrices and the placement by `Do`: the code ignores them, so no claim is made about rendering them.
- ReadingOrder.ChunksToText: works on one page; which extraction path a page takes depends on `GetPlainText`, which is not part of this model.
- GeneratePDF and image resizing: layout and pixels of foreign libraries.
- Text encoding: strings are sequences of code points, so invalid UTF-8 is not modelled.
- RateLimit.RateLimiter.Middleware: finding the bucket and asking it are one instant; the library's nanosecond rounding and an infinite rate are not modelled.
- Hub.HubLoop: keeps a connection's buffer in a map by connection; `Stop`, and the WebSocket pumps beyond one unregistration, are left out.
- HubDelivery.DeliveredInOrder: speaks of the buffer; what the network then delivers is left out.
- Backend.Service.Dispatch: follows one dispatcher and lets each goroutine finish before the next receive; all other interleavings are those of the transition system.
- FileRows.FileRepo.UpdateDone: writes status and storage path; the columns `meta` and `extracted_text`, written with them, are not part of a row here (`WordCount.ProcessPDF` says what is computed for them).
- FileRows.FileRepo.UpdateError: writes the status; the error message stored in `meta` is not modelled.
- Backend.Service.SaveRow: carries neither meta nor extracted text, as above.
- Backend.Service.Upload: starts at the tmp file; request parsing, size limits, content detection and the write to the partial file only reject before it. Removing the tmp file of a failed row is taken to succeed.
- A channel of size 0: an enqueue that meets a waiting receiver would succeed; the model refuses it.
- Shutdown by cancelling the context, and timers firing after the channel is closed: jobs are lost or the send panics; runs are stated before shutdown, apart from the drain on close.
- Delete: it can remove a row during processing and leaves objects behind; it would add cases without depth.
- Errors of `UpdateError`, `IncrementRetry` and the dead-letter insert, ignored by the code.
- The processed copy of an image, a local file of one attempt, and the emails.
- Listing files: paging clamps and queries, ownership outside `FileService`, tokens, passwords, configuration and logging.
