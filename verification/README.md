# Pentaract, verified in Dafny

Pentaract stores files in Telegram: it cuts a file into chunks of one size, uploads, re-downloads and
hash-checks them concurrently, and serves files and byte ranges back from parallel chunk loads. This
project models that pipeline and the state machines around it and proves what they promise, for every
input and every interleaving.

Concurrent code is a step system: one `Event` is one atomic action of one goroutine, any sequence of
enabled events is a run, and Telegram, the database, timers and cancellation are events that happen at
any time or not at all. Code that works by changing things in place is a class or a loop, proved
against a specification function. `dafny verify dfyconfig.toml` checks everything.

| file | what it models |
|---|---|
| `Prelude.dfy`, `Decimal.dfy` | option and result types; decimal numerals |
| `ChunkLayout.dfy` | chunk size, cutting a source into chunks, the upload's read loop, int16 positions |
| `CircuitBreaker.dfy`, `ChunkVerifier.dfy`, `UploadRun.dfy`, `BreakerRuns.dfy` | one upload: parallel uploads, verification pipeline, retry rounds, commit or cleanup; the breaker's cooldowns over whole uploads |
| `OrderedJobs.dfy`, `OrderedReads.dfy` | the ordered worker pool; whole-file and range reads through it |
| `RangeServing.dfy`, `ByteRange.dfy` | range windows, legacy layouts and the replay; range headers |
| `RoundTrip.dfy` | upload, then download |
| `StreamCache.dfy`, `ChunkLoads.dfy`, `CachedLoads.dfy` | the chunk cache, shared loads, shared loads over that cache |
| `ChunkCipher.dfy` | chunk framing |
| `Ebml.dfy`, `EbmlReader.dfy`, `Matroska.dfy`, `MatroskaReader.dfy`, `MatroskaDocument.dfy`, `MatroskaFormat.dfy` | EBML numbers and elements, the reader's loops, the header parser, documents and their printer, the bytes of the format and incomplete headers |
| `RateLimit.dfy`, `WorkerScheduler.dfy`, `TokenRate.dfy` | the sliding-window limiter, the token scheduler, and the two together |
| `DownloadTracker.dfy`, `HlsSessions.dfy` | download trackers and their timers; HLS sessions |
| `FileNaming.dfy`, `UploadPipeline.dfy` | conflict-free names; the browser's upload pipeline |

## Main results

- An upload that commits has stored exactly one record per chunk, each downloaded again and found to hold
  the source's bytes; they are positions 0..n-1 in order exactly for at most 32768 chunks, since positions
  are int16. An upload that does not commit hands everything it recorded to cleanup once. It commits exactly
  when it meets no cancellation, broken source, failed second-round upload, changed content or database
  failure and no chunk fails to verify in three retry rounds. Downloading a committed file, in whole or in any accepted range, gives back the
  source's bytes.
- The ordered worker pool does what a plain loop does, returns the first failure of the run, is never stuck
  and ends.
- A range read served from the inferred window equals concatenating everything and slicing, over any
  interleaving of its loads; a layout with larger chunks is always detected before the first byte is
  written and served by the replay. Only needed chunks are loaded, and only the failed load of one of them, or
  the client, cuts it short.
- A cached chunk is returned without any load, concurrent reads of another share one, and what leaves the
  cache is what was used least recently.
- Parsing a printed Matroska header is the identity, whatever unrecognised elements stand in it; a file cut
  before its Info and Tracks is reported as incomplete.
- Each minute holds at most the rate limit of usages of any worker, and at most as many calls get tokens of
  that worker fetched in it; no token is handed out twice.
- Where the code meets a promise only on a condition, the condition is proved exactly: committed records
  are in order for at most 32768 chunks (`UploadRun.CommitIsComplete`) and the chunk count is right for one
  fewer (`ChunkLayout.Int16PositionsAscend`); the size derived from the last chunk is the real one exactly
  for single-chunk files and the current chunk size (`RangeServing.ExactFileSizeIff`). An accepted suffix
  range of an empty file is the empty range 0..-1 (`ByteRange.AcceptedRangeIsInside`); a range header with a
  number above the int64 range is refused, which is right exactly if the file could not satisfy it
  (`ByteRange.HeaderSelects`, `ByteRange.HugeEndIsRefused`); and a plaintext chunk that starts with the
  cipher's magic is refused (`ChunkCipher.PlaintextPasses`).

## Assumptions

- Cancellation is permanent, and a database transaction begun on a cancelled context fails. After a
  cancellation the verifier can drop results while `stop` still returns nil, so this is needed for a
  commit to mean that every chunk was verified (`internal/service/chunk_uploader.go:470-472`).
- SHA-256 is injective; the chunk cipher is an ideal authenticated cipher. A message that Telegram
  returned once for a verified chunk returns the same bytes whenever a later load of it succeeds.
- A chunk load reports an error of its own, never the range handler's layout mismatch or write error.
- New HLS tokens are fresh. `regexp_quote` quotes correctly, so the naming statement
  selects exactly the path itself and its numbered variants.
- A token batch is one atomic step, and the clock does not run backwards.
- ffmpeg may write any segment file at any time, and segment files stay while their session lives.

## Model

| member | source | states |
|---|---|---|
| OrderedJobs.Step | internal/service/ordered_jobs.go:23-108 | every action of feeder, workers and collector keeps each fed job in exactly one place (worker, channel, parked, handed over) and the collector's state equal to the plain loop's |
| OrderedJobs.RefinesSequentialLoop | internal/service/ordered_jobs.go:23-108 | in every reachable state the sink, the error and the number of handle calls are those of the plain loop over an in-order prefix of the jobs, each with its own load's result; nil means all were handled, an error is the handle error, a load's error or the caller's cancellation |
| OrderedJobs.FirstFailureIsReturned | internal/service/ordered_jobs.go:18-108 | a returned call returns the handle error if there is one, else the first failure of any goroutine in the run (a load's own error, or the context's error if a goroutine gave up before), else the context's error if the caller cancelled in time, else nil |
| OrderedJobs.ErrorStopsWork | internal/service/ordered_jobs.go:46-66 | after any load, handle or context error the feeder is free to stop handing out jobs and no worker has to wait for room |
| OrderedJobs.LoadsAreBounded | internal/service/ordered_jobs.go:33-56 | the number of workers, and so of loads at a time, is the smaller of `parallelism` and the number of jobs, and at least one |
| OrderedJobs.FirstErrorStops | internal/service/ordered_jobs.go:84-97 | nothing is handled after a handle error, and the error is that of the last call |
| OrderedJobs.AllHandled | internal/service/ordered_jobs.go:84-107 | a pool that returns with neither a handle error nor a group error has handed over every job |
| OrderedJobs.DrainRefines | internal/service/ordered_jobs.go:87-96 | taking the next parked result is one turn of the plain loop |
| OrderedJobs.Progress | internal/service/ordered_jobs.go:35-108 | no state but the returned one is stuck: some goroutine can act once running loads return |
| OrderedJobs.WorkDecreases | internal/service/ordered_jobs.go:35-108 | every action of the pool uses up work, cancellation by the caller none |
| OrderedJobs.BoundedRun | internal/service/ordered_jobs.go:35-108 | however it is scheduled, a call takes boundedly many steps |
| OrderedJobs.CollectInOrder | internal/service/ordered_jobs.go:79-97 | the collector's loop over out-of-order arrivals hands over the longest gap-free prefix as the plain loop would |
| CircuitBreaker.TripTimeIsThresholdFailure | internal/service/verify_circuit_breaker.go:60-72 | the remembered trip time is that of the third failure of the current run of failures |
| CircuitBreaker.StreakBounds | internal/service/verify_circuit_breaker.go:31-72 | the counter is the length of the maximal run of failures the history ends with |
| CircuitBreaker.VerifyCircuitBreaker.RecordSuccess | internal/service/verify_circuit_breaker.go:48-58 | a success closes the breaker and resets the counter; the fields still summarise the whole history |
| CircuitBreaker.VerifyCircuitBreaker.RecordFailure | internal/service/verify_circuit_breaker.go:60-74 | a failure trips the breaker exactly at the third in a row and does not move the time of an open breaker |
| CircuitBreaker.FailureWait | internal/service/verify_circuit_breaker.go:60-99 | a failure opens a closed breaker exactly when it is the third in a row, for a full cooldown, and never prolongs the wait of an open one |
| CircuitBreaker.VerifyCircuitBreaker.WaitIfTripped | internal/service/verify_circuit_breaker.go:76-99 | nil comes at once, whatever the context, or a cooldown after the run of failures reached the threshold; the context's error comes exactly when the context ends, and only during a wait |
| ChunkVerifier.Step | internal/service/chunk_uploader.go:465-521 | every action keeps each accepted result in exactly one of: queued, in flight, verified, retry queue, failed, dropped; drops only once the context is done, whatever the breaker has recorded while the consumer waited |
| ChunkVerifier.SubmitKeeps | internal/service/chunk_uploader.go:480-489 | so does accepting one more result into an open channel with room |
| ChunkVerifier.StoppedCleanly | internal/service/chunk_uploader.go:524-531 | stop returning nil on a live context means verified plus retry queue is everything submitted, with nothing failed or dropped |
| ChunkVerifier.Progress | internal/service/chunk_uploader.go:465-531 | the pipeline never stalls before it is drained |
| BreakerRuns.BreakerGatesDispatch | internal/service/chunk_uploader.go:465-517 | over whole uploads: before every dispatch the consumer has looked at the breaker, and a cooldown lies between exactly if the verifications reported until that look ended in three or more failures, the third of them less than 30 seconds before |
| BreakerRuns.OutcomesAreReports | internal/service/chunk_uploader.go:491-517 | what the breaker has recorded is, in order, the passed and the transiently failed verifications of the pipeline; mismatches, aborts and retry rounds report nothing |
| UploadRun.Step | internal/service/chunk_uploader.go:128-404 | every action of every goroutine of an upload keeps its whole invariant: each position read is in one place, results and verifier agree, phases and channel agree |
| UploadRun.CommitIsComplete | internal/service/chunk_uploader.go:128-372 | in every interleaving a commit stores one record per chunk, each with a download that returned the source's bytes, and the uploaded, verification-total and verified counters all equal n; the records are positions 0..n-1 in chunk order exactly for n at most 32768, and beyond that position -32768 comes first |
| UploadRun.CommitsUnlessTroubled | internal/service/chunk_uploader.go:128-404 | a finished upload has committed exactly when no cancellation, broken source, failed second-round upload, changed content or database failure came before its end and no result failed transiently in three retry rounds; no result is retried more often, and each round follows a cooldown of its own |
| UploadRun.CanCommit | internal/service/chunk_uploader.go:128-404 | from every state before any such trouble, whatever transient failures it has met, some run without trouble or further failed retries leads to a commit |
| UploadRun.CommitXorCleanup | internal/service/chunk_uploader.go:350-403 | a finished run has either committed and cleaned up nothing, or committed nothing and handed every recorded message to cleanup exactly once |
| UploadRun.NoSendOnClosedChannel | internal/service/chunk_uploader.go:232-244 | when the verifier's channel is closed nobody is left who could submit |
| UploadRun.ResultsConserved | internal/service/chunk_uploader.go:465-545 | over whole runs with retry rounds every accepted result is in exactly one place, once |
| UploadRun.PersistCompletes | internal/service/chunk_uploader.go:350-372 | sorting the results by position yields one checked record per chunk when nothing is left to upload or verify |
| UploadRun.SortedRecords | internal/service/chunk_uploader.go:350-356 | with one record per chunk and at most 32768 chunks, sorting by int16 position puts the record of chunk i at place i, at position i |
| UploadRun.SortedOnce | internal/service/chunk_uploader.go:350-356 | a sorted list holding each of 0..n-1 once is 0, 1, ..., n-1 |
| UploadRun.Progress | internal/service/chunk_uploader.go:128-404 | no unfinished upload is stuck, and one without trouble so far has a next action without trouble |
| UploadRun.BoundedRun | internal/service/chunk_uploader.go:128-404 | an upload takes boundedly many steps, so it ends once its calls return |
| ChunkLayout.ReadChunks | internal/service/chunk_uploader.go:188-230 | the read loop cuts a source that ends cleanly into exactly its chunks, under consecutive int16 positions; a source that breaks, or a context that ends, leaves a prefix and is reported |
| ChunkLayout.SplitLayout | internal/service/chunk_uploader.go:199-230 | the chunks concatenate to the source, all but the last are full, none is empty |
| ChunkLayout.SplitOfConcat | internal/service/chunk_uploader.go:199-230 | a layout of full chunks is the only one for its bytes |
| ChunkLayout.Int16PositionsAscend | internal/service/chunk_uploader.go:196-230 | int16 positions ascend exactly for at most 32768 chunks, and the count is right exactly for at most 32767 |
| RangeServing.WriteRangeWindow | internal/service/chunk_downloader.go:329-369 | the loop delivers exactly what the window specification says, with an exact written count unless the connection broke |
| RangeServing.DownloadRangeToWriter | internal/service/chunk_downloader.go:283-316 | validation, window choice and the single replay deliver what `Serve` says |
| RangeServing.WindowIsInferred | internal/service/chunk_downloader.go:264-279 | for every supported layout a window is inferred; it covers the range and consists of exactly the chunks that a read needs if chunks have the current size |
| RangeServing.WindowDelivers | internal/service/chunk_downloader.go:329-369 | clipping chunk by chunk equals slicing the concatenation |
| RangeServing.LegacyLayoutDetected | internal/service/chunk_downloader.go:318-389 | for chunks larger by at least the margin, an inferred window fails on its first chunk, before any byte is written |
| RangeServing.CurrentLayoutPasses | internal/service/chunk_downloader.go:377-389 | no chunk of a current layout contradicts it, even if the recorded size overshoots by less than the margin |
| RangeServing.RangeReadDelivers | internal/service/chunk_downloader.go:264-389 | every valid range of a supported file yields exactly its bytes clipped to the real size, or a prefix of them with an error; that is a client that took too little, or a load error, for which the load of a needed chunk (or, with larger chunks, of some chunk in the replay) has failed; never a layout mismatch |
| RangeServing.SmallChunksAreServed | internal/service/chunk_downloader.go:264-316 | a file recorded as too small for its number of chunks is read from the first chunk, and so served whatever its layout |
| RangeServing.ServeIsBounded | internal/service/chunk_downloader.go:283-389 | for any chunk sizes and any loads a client is never sent more bytes than it asked for, so no replay repeats a byte; a request is invalid exactly outside the recorded size; a layout mismatch is reported only once bytes have been sent |
| RangeServing.FromFirstChunk | internal/service/chunk_downloader.go:306-316 | reading from the first chunk is right for any layout, and reports a load error only if one of the chunks read failed to load |
| RangeServing.ExactFileSizeIff | internal/service/chunk_downloader.go:248-261 | the derived size is the real one exactly for one chunk or the current chunk size |
| OrderedReads.WholeFileDelivers | internal/service/chunk_downloader.go:171-232 | however its loads interleave, a whole-file read writes a prefix of the file, and all of it on success; otherwise it returns an error of a load, of the caller's context or of a client that took too little |
| OrderedReads.PoolDeliversWindow | internal/service/chunk_downloader.go:171-190 | a range read through the concurrent pool delivers what the window specification says of the chunks it handed over |
| OrderedReads.OnlyNeededLoads | internal/service/chunk_downloader.go:264-369 | the pool of an inferred window loads no chunk that the request does not need |
| OrderedReads.PoolServesRange | internal/service/chunk_downloader.go:283-369 | over any interleaving of the window's loads and of the replay's, a returned range read of a supported file has written exactly the requested bytes on nil, else a prefix with an error of a load, of the caller's context or of the client; a layout mismatch never reaches the caller, and the window loads only needed chunks |
| OrderedReads.PoolServesCurrent | internal/service/chunk_downloader.go:264-389 | for the current chunk size the inferred window alone serves the request |
| ByteRange.AcceptedRangeIsInside | internal/handler/download_handler.go:289-327 | an accepted range lies within a non-empty file; of an empty one only the empty suffix range is accepted |
| ByteRange.HeaderSelects | internal/handler/download_handler.go:289-327 | a header of any of the three forms, with any digits, selects exactly the bytes it asks for and is refused exactly when it asks for none (a positive suffix of an empty file is an empty range), if and only if its numbers are int64 or its bounds are in reverse or begin after the file; with a larger number it is always refused |
| ByteRange.HugeEndIsRefused | internal/handler/download_handler.go:322-324 | bytes=0-9223372036854775808, which asks for the whole of any non-empty file, is refused |
| ByteRange.AcceptedRangeIsServed | internal/handler/download_handler.go:247-257 | every range the handler accepts for a supported non-empty file is delivered, unless the client leaves or the load of a chunk that the read needs fails |
| RoundTrip.CommitStores | internal/service/chunk_uploader.go:350-372 | a committed upload's verified contents make up the source in the layout range reads expect |
| RoundTrip.UploadThenDownload | internal/service/chunk_downloader.go:210-232 | downloading a committed file returns the source; short of it only for an error of a load, of the caller's context or of the client |
| RoundTrip.UploadThenExactSize | internal/service/chunk_downloader.go:248-261 | the derived size of a committed file is the source's length |
| RoundTrip.UploadThenRange | internal/service/chunk_downloader.go:283-316 | every accepted range header on a committed file is answered with exactly that slice of the source, from the inferred window, never by the replay; only a failed load of a chunk the range lies in or the client cuts it short |
| RoundTrip.UploadThenPoolRange | internal/service/chunk_downloader.go:283-369 | the same over any interleaving of the concurrent loads: on nil the client has received exactly that slice of the source |
| Decimal.PrintInjective | internal/repository/files.go:42-45 | different numbers have different numerals |
| Decimal.ParsePrint | internal/handler/download_handler.go:303-323 | parsing a printed natural gives it back, and fails exactly above the int64 range |
| StreamCache.FittingPrefixIsLongest | internal/service/stream_chunk_cache.go:95-106 | trimming keeps the longest prefix within both bounds |
| StreamCache.AfterIsBounded | internal/service/stream_chunk_cache.go:51-106 | keys stay distinct and both bounds hold after every operation |
| StreamCache.SetSurvives | internal/service/stream_chunk_cache.go:65-93 | non-empty data within the byte bound is stored and never trimmed by its own insertion, other data changes nothing |
| StreamCache.GetReturnsLastSet | internal/service/stream_chunk_cache.go:51-93 | after any history a hit returns the data last accepted for its key |
| StreamCache.RunByUse | internal/service/stream_chunk_cache.go:51-106 | after any history the list is in the order of last use, an accepted set or a hit counting as use |
| StreamCache.EvictsLeastRecentlyUsed | internal/service/stream_chunk_cache.go:65-106 | what an operation evicts was used less recently, in the history of operations, than everything that stays, and the most recently used of it would not have fitted |
| StreamCache.StreamChunkCache.Get | internal/service/stream_chunk_cache.go:51-63 | a hit moves its entry to the front; map, list and total stay in step |
| StreamCache.StreamChunkCache.Set | internal/service/stream_chunk_cache.go:65-93 | empty or oversized data changes nothing, other data goes to the front and the rest is trimmed to what fits |
| StreamCache.StreamChunkCache.TrimLocked | internal/service/stream_chunk_cache.go:95-106 | the loop from the back leaves the longest prefix that fits |
| ChunkLoads.Step | internal/service/chunk_downloader.go:126-161 | every action of every call keeps cache, flights and calls consistent |
| ChunkLoads.ReturnsLoadedData | internal/service/chunk_downloader.go:126-161 | returned data is always what an uncached load of the same chunk returned |
| ChunkLoads.OneLoadPerKey | internal/service/chunk_downloader.go:131-145 | at most one load per chunk runs at a time |
| ChunkLoads.NoForeignContextError | internal/service/chunk_downloader.go:146-155 | a caller whose own context is live gets a context error only from a load it ran itself and shared with nobody |
| ChunkLoads.TakesOutcome | internal/service/chunk_downloader.go:145-160 | a call returns exactly what its flight ended with, data or error; it goes round again only for a shared context error while its own context is live |
| ChunkLoads.NeverStuck | internal/service/chunk_downloader.go:126-161 | no call waits for something nobody will do |
| CachedLoads.StepIsLoads | internal/service/stream_chunk_cache.go:51-106 | an action of a call over the bounded cache is that action over a map from which some entries, never the one just set, are then dropped; a look changes no entry |
| CachedLoads.Project | internal/service/chunk_downloader.go:126-161 | every run over the bounded cache is a run of the shared loads with evictions, and the cache stays within its bounds |
| CachedLoads.CachedLoadsAreSound | internal/service/chunk_downloader.go:126-161 | so over that cache returned data is what an uncached load returned, no chunk is loaded twice at once, and no other call's context error gets through |
| CachedLoads.CachedCallNeverLoads | internal/service/chunk_downloader.go:126-131 | a call whose chunk is cached when it first looks returns that data without starting, joining or running any load |
| CachedLoads.SecondLookHit | internal/service/chunk_downloader.go:131-137 | a leader that finds its chunk at the second look ends its flight with it, for all who joined |
| CachedLoads.OnlyMissesLoad | internal/service/chunk_downloader.go:131-145 | a load is only ever run by a leading call that has found its chunk absent from the cache at its second look |
| CachedLoads.StoredIsCached | internal/service/stream_chunk_cache.go:65-93 | what a load brings is in the cache once stored, unless it is empty or larger than the cache |
| ChunkCipher.EncryptThenDecrypt | internal/service/chunk_crypto.go:46-134 | a sealed chunk decrypts exactly with the secret that sealed it, as the cipher's own or as its non-empty fallback, and is refused under any other |
| ChunkCipher.MovedChunkIsRefused | internal/service/chunk_crypto.go:75-134 | a sealed chunk opens for no other file or position |
| ChunkCipher.PlaintextPasses | internal/service/chunk_crypto.go:108-112 | a plaintext chunk passes unchanged exactly when it does not start with the magic |
| Ebml.SizeRoundTrip | internal/media/matroska.go:394-419 | for widths 1 to 8 every size reads back, and as unknown exactly for the all-ones number |
| Ebml.IdRoundTrip | internal/media/matroska.go:374-391 | well-formed IDs of 1 to 4 bytes read back unchanged |
| Ebml.ReadIdIsValid | internal/media/matroska.go:374-391 | every ID that is read is well-formed and has no other spelling |
| Ebml.UnknownIsLargest | internal/media/matroska.go:404-418 | all data bits set is the same as the largest number of the width |
| Ebml.ElementsOfPrint | internal/media/matroska.go:331-348 | printed children read back one by one, each payload to the byte |
| EbmlReader.FirstBit | internal/media/matroska.go:421-428 | the bit loop finds the width the first byte announces |
| EbmlReader.Reader.ReadID | internal/media/matroska.go:374-391 | the byte loop reads what the specification reads and leaves the rest |
| EbmlReader.Reader.ReadSize | internal/media/matroska.go:394-419 | so does the loop for sizes, including the unknown-size marker |
| EbmlReader.Reader.ReadElementHeader | internal/media/matroska.go:353-372 | headers, with an end of data inside one never a clean end |
| EbmlReader.Reader.NextChild | internal/media/matroska.go:331-348 | the head of the child loop yields the next child, a clean end or an error |
| EbmlReader.Reader.ReadUint | internal/media/matroska.go:430-443 | at most 8 bytes, big-endian, consumed exactly |
| EbmlReader.Reader.Skip | internal/media/matroska.go:469-481 | skipping consumes exactly the payload or reports that data ended |
| MatroskaReader.ReadEntry | internal/media/matroska.go:239-314 | the loop over a track entry computes the specified track and stops exactly at its end |
| MatroskaReader.ReadTracks | internal/media/matroska.go:225-237 | so does the loop over Tracks |
| MatroskaReader.ReadInfo | internal/media/matroska.go:194-223 | and the loop over Info |
| MatroskaReader.ReadSegment | internal/media/matroska.go:129-160 | and the loop over the Segment, which stops once Info and Tracks are read |
| MatroskaReader.ReadMatroska | internal/media/matroska.go:110-160 | the whole reader returns what the specification says of the bytes, errors included |
| MatroskaDocument.PositiveIff | internal/media/matroska.go:194-223 | on the IEEE 754 bits, a duration counts as positive exactly if its sign is plus, it is not zero and it is a number or infinity, in both widths |
| MatroskaDocument.ParsePrint | internal/media/matroska.go:110-348 | parsing any well-formed document gives its meaning: last value of each field, tracks in order, a duration exactly if its float is a number above zero and its scale is not 0, whatever elements are unrecognised, whatever the Segment's size and whatever follows the header |
| MatroskaDocument.EntryFold | internal/media/matroska.go:239-314 | reading children in order sets each field to its last occurrence |
| MatroskaDocument.CoreMeaning | internal/media/matroska.go:110-348 | unrecognised elements at any level and size widths do not change the meaning |
| MatroskaDocument.WriteThenParse | internal/media/matroska_test.go:15-103 | any file whose prescribed part is that of a written header, Info and Tracks in either order, parses to what was written |
| MatroskaDocument.WriteThenParseIdentity | internal/media/matroska_test.go:15-103 | written headers are well-formed, and writing then parsing is the identity |
| MatroskaFormat.OneByteIds | internal/media/matroska.go:19-43 | the element IDs are those of RFC 9559, as bytes in the file |
| MatroskaFormat.TwoAndThreeByteIds | internal/media/matroska.go:19-43 | so are those of two and three bytes |
| MatroskaFormat.FourByteIds | internal/media/matroska.go:19-43 | and those of four |
| MatroskaFormat.StringValue | internal/media/matroska.go:461-467 | a string is an element's bytes without the zero bytes at its end, and no fewer |
| MatroskaFormat.ContainerIff | internal/media/matroska.go:169-176 | a file is WebM exactly if its document type is "webm" in any case |
| MatroskaFormat.Defaults | internal/media/matroska.go:178-329 | what absent fields mean: "und", the default flag, a tick of a millisecond, the Matroska container; and which track types are told apart |
| MatroskaFormat.OnlyEbmlFiles | internal/media/matroska.go:110-121 | whatever is not reported as no Matroska file begins with the EBML magic |
| MatroskaFormat.CutFileIsIncomplete | internal/media/matroska.go:129-167 | a well-formed file cut before Info and Tracks are found, between or inside the headers of the Segment's children or inside a skipped one, is reported as an incomplete header |
| MatroskaFormat.CutInsideIsTruncated | internal/media/matroska.go:129-160 | a cut strictly inside a child of Info, or inside a child of Tracks before the payload of a track entry, is a different error, which the caller does not take for an incomplete header |
| MatroskaFormat.WrongSizesAreMalformed | internal/media/matroska.go:430-459 | a tick length of more than 8 bytes, or a duration of another size than 0, 4 or 8, makes the file malformed |
| MatroskaFormat.ElementsThatEndTheHeader | internal/media/matroska.go:146-156 | so is a Cluster of any size before them, while another element of unknown size makes the file malformed |
| RateLimit.Step | internal/repository/storage_workers.go:116-192 | batches, cleanups and clock keep table and full history in agreement on the last minute, within the limit |
| RateLimit.RateLimitHolds | internal/repository/storage_workers.go:146-192 | every closed one-minute window holds at most the rate limit of usages of any worker |
| RateLimit.CleanupIsInvisible | internal/repository/storage_workers.go:116-141 | what a batch may return is what it could if nothing had ever been deleted |
| RateLimit.EmptyBatchIffSaturated | internal/repository/storage_workers.go:154-175 | a batch is empty exactly when every worker of the storage or of none is at its limit |
| RateLimit.PickedWorkersServe | internal/repository/storage_workers.go:154-165 | a batch uses only workers of the asked storage or of none |
| RateLimit.BatchIsLarge | internal/repository/storage_workers.go:154-175 | a batch is as large as asked for, unless it takes every such worker to its limit |
| RateLimit.SomeBatch | internal/repository/storage_workers.go:154-175 | a batch of the prescribed size within all limits always exists |
| RateLimit.CleanupsAreSpaced | internal/repository/storage_workers.go:116-125 | cleanups start at least five minutes apart |
| RateLimit.UnexpiredIff | internal/repository/storage_workers.go:129-135 | a cleanup deletes exactly the usages older than a minute |
| RateLimit.CleanupsKeepUp | internal/repository/storage_workers.go:116-125 | after every batch a cleanup runs, or one was started, or the limiter itself, less than five minutes ago |
| TokenRate.FetchedArePicked | internal/repository/storage_workers.go:146-192 | the tokens of a batch stand for the usages it records, of the picked workers and of that time |
| TokenRate.Project | internal/service/worker_scheduler.go:86-134 | a joint run of calls, batches, lost batches and cleanups is a run of the limiter and a run of the scheduler, whose new tokens are always fresh |
| TokenRate.FetchedWithinLimit | internal/repository/storage_workers.go:146-192 | at most the rate limit of tokens of any worker are fetched within any closed minute |
| TokenRate.HandedOutWithinLimit | internal/service/worker_scheduler.go:86-134 | at most as many calls return tokens of that worker fetched in that minute |
| WorkerScheduler.TokensAreConserved | internal/service/worker_scheduler.go:58-134 | tokens held or returned by calls and tokens still buffered are the recorded ones, each once |
| WorkerScheduler.HandedOutOnce | internal/service/worker_scheduler.go:58-134 | a returned token was recorded, is no longer buffered and is returned by no other call |
| WorkerScheduler.BufferIsFifo | internal/service/worker_scheduler.go:60-84 | each storage's buffer is what was pushed and not yet popped, in order |
| WorkerScheduler.BufferedTokenIsTaken | internal/service/worker_scheduler.go:60-99 | a call that finds tokens buffered for its storage returns the oldest of them, whatever happens meanwhile; otherwise it has to fetch |
| WorkerScheduler.FetchedTokenIsTaken | internal/service/worker_scheduler.go:86-134 | a call that has fetched a batch returns its first token |
| WorkerScheduler.NoTokenIffFailed | internal/service/worker_scheduler.go:86-134 | a call comes back without a token exactly if a batch of its own has failed or it gave up, which it can exactly once it has been cancelled |
| WorkerScheduler.EmptyBatchSleeps | internal/service/worker_scheduler.go:100-134 | after an empty batch a call announces that it waits, and sleeps, before it asks again |
| WorkerScheduler.WaitingIsExact | internal/service/worker_scheduler.go:44-57 | the counter is the number of calls that have announced that they wait and have not returned; every call asleep is among them and no returned one is |
| WorkerScheduler.Scheduler.SetWaiting | internal/service/worker_scheduler.go:44-51 | the counter moves by the delta and disappears at zero |
| WorkerScheduler.Scheduler.PopBufferedToken | internal/service/worker_scheduler.go:60-70 | the oldest token of that storage leaves, no other buffer changes |
| WorkerScheduler.Scheduler.BufferTokens | internal/service/worker_scheduler.go:73-82 | the extras are appended in order, no other buffer changes |
| DownloadTracker.Step | internal/handler/download_handler.go:47-145 | every region under the lock keeps each registered tracker attended by a request or a timer |
| DownloadTracker.RegisteredIsAttended | internal/handler/download_handler.go:47-145 | every registered tracker has a running request or a pending timer that is able to end it |
| DownloadTracker.TimersRemove | internal/handler/download_handler.go:72-145 | when the request is over, at most three firings of the tracker's own timers remove it |
| DownloadTracker.StatusNeverMovesBack | internal/handler/progress_tracker.go:82-105 | over any run a status never moves back in the order downloading, interrupted, done or error, cancelled |
| DownloadTracker.StaleTimersAreHarmless | internal/handler/download_handler.go:72-85 | a timer of one tracker neither changes nor removes another, in particular a newer one with the same id |
| DownloadTracker.OthersKept | internal/handler/download_handler.go:56-62 | only a newer request or a cancel request for its id changes another tracker, by cancelling it |
| DownloadTracker.CancelledExactlyOnRequest | internal/handler/progress_tracker.go:82-105 | once set up, a tracker reports "cancelled" exactly when a cancel request or a newer request found it under its id, however its download went on or ended |
| DownloadTracker.ReportsWhatHappened | internal/handler/progress_tracker.go:82-105 | unless cancelled, a tracker reports "done" exactly once its request has finished, "error" exactly once it has failed or its grace period has ended, and until then "interrupted" exactly once its client has left |
| DownloadTracker.DownloadHandler.Setup | internal/handler/download_handler.go:47-67 | a new tracker is registered under the id and the previous one is cancelled: the step system's setup |
| DownloadTracker.DownloadHandler.CancelDownload | internal/handler/download_handler.go:359-375 | the id's tracker is cancelled, or reported missing: the step system's cancel request |
| DownloadTracker.DownloadHandler.FinishTracker | internal/handler/download_handler.go:94-102 | the tracker is done with or without an error, and no other tracker changes |
| DownloadTracker.DownloadHandler.GraceOver | internal/handler/download_handler.go:133-144 | a tracker that is still the id's own fails unless it is done, a replaced one stays as it is: the step system's grace timer |
| DownloadTracker.DownloadHandler.Cleanup | internal/handler/download_handler.go:72-85 | the id loses its tracker exactly if it is this one and not waiting for the browser: the step system's removal timer |
| DownloadTracker.DownloadHandler.Status | internal/handler/progress_tracker.go:92-105 | the status reported for an id is that of the tracker it leads to in the step system |
| HlsSessions.Session.LastProduced | internal/service/hls.go:517-522 | the scan ends at the last segment before the first gap |
| HlsSessions.Session.Covers | internal/service/hls.go:490-501 | covered means not before the start and either present or, while ffmpeg runs, at most three past the gap-free segments |
| HlsSessions.Service.Resource | internal/service/hls.go:343-368 | a request waits for its own segment, a request for the init file for the first segment of the session, or segment 0 without one; it goes on with a session that covers that segment, replaces the session exactly when it does not, changes nothing out of range, and touches no other key |
| HlsSessions.Service.StartSessionLocked | internal/service/hls.go:400-448 | a started session is in both tables under a fresh token, a failed start changes neither |
| HlsSessions.Service.StopSessionLocked | internal/service/hls.go:450-460 | a stopped session leaves both tables and is cancelled |
| HlsSessions.Service.Stop | internal/service/hls.go:382-390 | every variant of that user's sessions on that file ends, and no other session |
| HlsSessions.Service.ReapIdle | internal/service/hls.go:476-486 | exactly the sessions not seen since the cutoff end |
| HlsSessions.Service.Close | internal/service/hls.go:205-213 | no session, no source token and no uncancelled process is left |
| HlsSessions.Service.LookupSource | internal/service/hls.go:393-398 | a token resolves exactly when a live session has it, to that session's file |
| HlsSessions.AddSession | internal/service/hls.go:445-447 | adding a session under a new key and token keeps source tokens equal to live tokens |
| HlsSessions.RemoveSession | internal/service/hls.go:450-454 | so does removing one |
| FileNaming.FreeNumberExists | internal/repository/files.go:41-45 | by pigeonhole one of the first count+1 numbered names is free |
| FileNaming.NextNumIsLeastFree | internal/repository/files.go:41-48 | the number chosen is the least free one and never the fallback 0 |
| FileNaming.ChoiceIsFree | internal/repository/files.go:31-59 | the chosen path is in no row of the storage: the requested one if free, else the least free variant |
| FileNaming.FilesRepo.CreateFileAnyway | internal/repository/files.go:31-59 | the inserted row has that path, and no other row changes |
| FileNaming.SplitJoins | internal/pathutil/pathutil.go:47-60 | directory, stem and extension make up the path |
| FileNaming.VariantKeepsDirAndExtension | internal/pathutil/pathutil.go:47-60 | a numbered variant splits into the same directory and extension |
| UploadPipeline.RunUploadPipeline | ui/src/pages/Files/operations.js:60-89 | items start in order, each only after the previous request settled and all uploads before it completed; all of them are started unless a start is declined or throws, which ends the calls; on a normal return every started upload has completed |
| UploadPipeline.FewUnfinished | ui/src/pages/Files/operations.js:60-89 | if all but the last n uploads have completed, at most n are unfinished |

## Left out

- Telegram requests, PostgreSQL, the filesystem and ffmpeg: each call succeeds or fails, at any time. Uploads whose acknowledgement was lost are not modelled.
- A limit of the database on one statement, which the insert of a very long file's chunks may hit, is one of the ways persisting fails.
- The attempts inside `uploadChunkWithRetry` and `verifySingleChunk`: one upload or verification is one event that succeeds or fails.
- Upload and scheduler goroutines are step systems on values; field updates under their mutexes are atomic actions, and slices shared between goroutines are not aliased.
- AES-GCM, PBKDF2 and SHA-256 internals, buffer pools and nonce generation.
- Floating point: Matroska durations and sample rates stay raw bits, so the conversion to seconds, playlists and watch progress are not modelled; nor is `CodecName`.
- The handlers given to `forEachChild` are methods for one child each, with one loop around each of them, instead of closures passed to one loop.
- A payload size too large to allocate, which ends the Go program.
- Info or Tracks elements of unknown size, which swallow the rest of the file: the parser model treats them as the code does, the printer does not write them. Header prefixes cut at an element boundary, which the code does not tell from complete ones.
- Range claims for layouts of mixed sizes or with chunks smaller than the current size, which the layout check does not aim at.
- Which eligible workers a batch takes first: the statement orders them before it limits the batch, SQL does not promise that order, and the model allows any.
- `NextAvailableIn` only tunes a sleep: waiting ends at any time.
- Usages are stamped when tokens are fetched, so nothing is said about Telegram calls per minute; the breaker's check precedes a dispatch that may block, so one may still fall into a cooldown that began after its check.
- Progress streams, access checks, CRUD services, folder moves and searches, routing and React components.
- RateLimit.CleanupsAreSpaced: one clock stands for those of the server and of the database.
- HlsSessions.Service.Resource: the wait for the segment file after the lock is released is not modelled.
- FileNaming.ChoiceIsFree: one statement at a time; two concurrent inserts may choose the same name, as the table has no unique key.
