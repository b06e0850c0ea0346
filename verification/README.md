# Verified models of the image and network code that QLadder is built with

The application ships two vendored libraries whose behaviour is intricate: Kingfisher (image
download, cache, prefetching, animation) and Alamofire (requests with retries, multipart bodies,
query strings). This project models their hard parts in Dafny and proves what they promise, over
every run or every input.

Each protocol is given twice: as a pure `State`/`Step` pair, over which the theorems about all
runs are proved, and as classes whose methods update their fields in place and are proved to do
exactly what the matching step does. What a protocol delivers is told from the events of a run (who
asked, what failed, what was stored), without the functions of the step. Algorithms (MD5, the
multipart printer, the query encoder, the disk cleanup) are methods with loops, proved against
independent definitions: the standard, a parser, or a declarative description.

| file | models |
|---|---|
| `Downloader.dfy`, `ImageDownloader.dfy` | shared loads, counted cancels and parked requests of the image downloader |
| `Prefetcher.dfy` | the slot scheduler of the prefetcher |
| `ImageCache.dfy` | the two-level image cache with its io queue, and the cleaning of the disk |
| `Manager.dfy` | one retrieval through cache, processor and downloader |
| `Animator.dfy` | the ring of decoded frames behind an animated image |
| `MD5.dfy` | the digest that names the cache files |
| `Retry.dfy`, `Session.dfy` | attempts, registry, validations and retries of data requests |
| `Multipart.dfy`, `MultipartFormData.dfy` | the multipart printer, in memory and streamed, and a parser for it |
| `QueryString.dfy` | percent-encoding and the query of nested parameters |
| `Basics.dfy` | the option type and the minimum that the others share |

Findings, with the lemmas that exhibit them and those that say exactly when they happen:

- Only the failure path signals the semaphore that parked requests wait for, and they wait in one serial queue. A request parked on a load that gets processed is stranded, and so is every request behind it, of any URL (`StrandedExample`, `StrandsOthers`, `StrandedForever`; exactly when: `ReleasableIff`).
- The prefetcher can complete while a download is in flight, for every input and limit that open two slots, if a URL is listed twice or a download returns no task (`RepeatedURLCompletesEarly`, `UntrackedCompletesEarly`; exactly when: `ReportsInputIffTracked`, `ReportsInputIff`). A stopped prefetcher still starts downloads that blocks were queued for (`StoppedPrefetcherStillStarts`; exactly when: `StoppedStillStartsIff`).
- With one frame more than buffer slots the first refill reads index -1, and tick `k` alone shows nothing (`ShownFrame`).
- Streaming to a file without space for it drops the rest and reports success (`WriteToFullFile`; exactly when: `WriteEncodedData`).
- Removing an image that a queued load is about to read, or that is being decoded, brings it back (`RetrieveThenRemove`, `DecodingThenRemove`; exactly when: `RemovalFailsIff`). Two cache keys can share a computed key exactly when they are equal or one extends the other from an `@` on (`CollideIff`).
- With `waitForCache` an image that comes without its data completes nobody (exactly when: `CompletesOnceIff`).
- Resuming a request whose failed adaptation is being decided releases its response handlers before the retried task has ended (`EarlyResumeExample`; exactly when: `SuspendedWhileOpen`).

Where comments and code disagree the code is followed: the sort of the cleaned files is described
as by modification date and goes by access date.

## Model

| member | source | states |
|---|---|---|
| DownloaderTheorems.EachHandlerCalledOnce | Pods/Kingfisher/Sources/ImageDownloader.swift:326-456 | over every interleaving of downloads, cancels, failures, completions, processing and released parked requests, no completion handler is called more often than it was passed in, and exactly as often once no task, no processing job and no parked request is left |
| DownloaderTheorems.RunOwes | Pods/Kingfisher/Sources/ImageDownloader.swift:571-672 | the handlers called, held by registered loads and parked are at all times, as a multiset, those passed in |
| DownloaderTheorems.EachHandlerIsToldItsOutcome | Pods/Kingfisher/Sources/ImageDownloader.swift:326-672 | over every run whoever is called had asked for it: a rejected request is told so; one for a URL with a processor hears of a transport error only if a task of that URL failed, and otherwise a processing block of such a task ran and it is told the image that its own processor made together with the data, else that nothing was modified, else that the data were bad |
| DownloaderTheorems.OnlyRequestIsTold | Pods/Kingfisher/Sources/ImageDownloader.swift:604-672 | so a handler that was passed in once is told the outcome for its own URL and processor |
| DownloaderTheorems.RunKeepsRegistry | Pods/Kingfisher/Sources/ImageDownloader.swift:388-415 | every registered load has its own task still running or being processed, and the session handler holds the downloader exactly while a load is registered |
| DownloaderTheorems.StepKeepsRegistry | Pods/Kingfisher/Sources/ImageDownloader.swift:571-582 | each single block keeps that |
| DownloaderTheorems.CountIsJoinsMinusCancels | Pods/Kingfisher/Sources/ImageDownloader.swift:417-455 | a load's task count is the number of requests that joined it minus the cancels that hit it while it was registered |
| DownloaderTheorems.StoppedIff | Pods/Kingfisher/Sources/ImageDownloader.swift:417-455 | over every run a load's task has been stopped exactly when some step was a cancel-all while the load was registered, or a cancel of that very task with which the cancels of the load registered for its URL became as many as the requests that joined it |
| DownloaderTheorems.RunKeepsGates | Pods/Kingfisher/Sources/ImageDownloader.swift:388-415 | unless a processing block orphans a load, requests are parked behind a closed semaphore exactly while their load is registered |
| DownloaderTheorems.ParkedRequestsAreReleased | Pods/Kingfisher/Sources/ImageDownloader.swift:584-602 | then a parked request whose load is gone always goes through, so the cancel queue is never stuck when no task and no job is left |
| DownloaderTheorems.ReleasableIff | Pods/Kingfisher/Sources/ImageDownloader.swift:388-672 | in every reachable state some continuation releases a parked request if and only if neither it nor a request before it in the serial queue is parked on a lost load: one that is gone without a signal, or that no running task can fail any more |
| DownloaderTheorems.ReleasedIffLoadFails | Pods/Kingfisher/Sources/ImageDownloader.swift:584-672 | without such losses before, the step that takes a load away opens its semaphore if and only if it is not the processing block |
| DownloaderTheorems.StrandedForever | Pods/Kingfisher/Sources/ImageDownloader.swift:388-415 | a request parked on a lost load, and every request behind it in the queue, whatever its URL, stays parked in every continuation |
| DownloaderTheorems.StrandsOthers | Pods/Kingfisher/Sources/ImageDownloader.swift:388-602 | behind a stranded head a load of another URL fails, its semaphore opens, and the request parked on it is never released |
| DownloaderTheorems.StrandedExample | Pods/Kingfisher/Sources/ImageDownloader.swift:604-672 | a run of five blocks that strands a request: download, success, cancel, new request, processing |
| DownloaderTheorems.StrandedBeforeProcessing | Pods/Kingfisher/Sources/ImageDownloader.swift:400-412 | one block earlier the load is still registered and yet its request is beyond release, because its task can no longer fail |
| Downloader.ImageDownloader.DownloadImage | Pods/Kingfisher/Sources/ImageDownloader.swift:326-378 | a refused or empty request is answered at once; any other joins, creates or is parked, and returns the shared task |
| Downloader.ImageDownloader.Setup | Pods/Kingfisher/Sources/ImageDownloader.swift:388-415 | meeting a load with count zero parks the request, else it joins or creates the load |
| Downloader.ImageDownloader.CancelTask | Pods/Kingfisher/Sources/ImageDownloader.swift:417-440 | the cancel block, in place, is the protocol's cancel step |
| Downloader.ImageDownloader.CancelAllTasks | Pods/Kingfisher/Sources/ImageDownloader.swift:447-455 | the loop over the loads cancels each exactly once |
| Downloader.ImageDownloader.SignalAll | Pods/Kingfisher/Sources/ImageDownloader.swift:592-595 | signalling until no waiter was woken leaves one signal more than the non-negative value |
| Downloader.ImageDownloader.CallCompletionHandlerFailure | Pods/Kingfisher/Sources/ImageDownloader.swift:584-602 | the failure path unregisters the load, opens its semaphore and fails each of its handlers in order |
| Downloader.ImageDownloader.CallCompletionHandlers | Pods/Kingfisher/Sources/ImageDownloader.swift:604-672 | the delivery loop with its per-processor image cache calls every handler with what its own processor makes of the data |
| Downloader.ImageDownloader.RunCancelBlock | Pods/Kingfisher/Sources/ImageDownloader.swift:400-412 | the parked block waits on the semaphore or passes it, and then prepares its load |
| PrefetcherTheorems.SchedulerIsBoundedAndLive | Pods/Kingfisher/Sources/ImagePrefetcher.swift:155-267 | downloads in flight plus queued blocks never exceed the smaller of resource count and limit, stopped or not; a run has at most three working steps a resource; and one that can go no further has completed |
| PrefetcherTheorems.RunKeepsSlots | Pods/Kingfisher/Sources/ImagePrefetcher.swift:198-267 | the measure 3·pending + 2·in-flight + queued falls at every step but a stop, no slot appears, and before completion some slot is occupied |
| PrefetcherTheorems.ConservedUntilFirstCompletion | Pods/Kingfisher/Sources/ImagePrefetcher.swift:155-276 | until the first completion pending, in-flight, skipped, failed and completed are the input as a multiset, so what the first completion does not report is what is then in flight |
| PrefetcherTheorems.FirstCompletionReportsInput | Pods/Kingfisher/Sources/ImagePrefetcher.swift:155-276 | with distinct URLs and a task for every download the first completion reports a permutation of the input, with or without a stop |
| PrefetcherTheorems.ListsFollowTrace | Pods/Kingfisher/Sources/ImagePrefetcher.swift:155-267 | until the first completion, in order: skipped lists the resources that were started and found in the cache, completed those downloaded, failed those refused or not downloaded, pending the rest; the tasks and the stop flag are what the run says too |
| PrefetcherTheorems.FirstCompletionReports | Pods/Kingfisher/Sources/ImagePrefetcher.swift:198-276 | the first completion comes exactly when no task is left and a handler has run in a stopped prefetcher or a block found nothing to start, and it reports exactly those lists, with what was never started behind the failed ones |
| PrefetcherTheorems.ReportsInputIffTracked | Pods/Kingfisher/Sources/ImagePrefetcher.swift:155-276 | when every download returns a task, the first completion of every run, stopped or not, reports a permutation of the input if and only if the URLs are distinct or at most one slot is ever open |
| PrefetcherTheorems.ReportsInputIff | Pods/Kingfisher/Sources/ImagePrefetcher.swift:155-276 | when downloads may return no task, if and only if at most one slot is ever open |
| PrefetcherTheorems.UntrackedCompletesEarly | Pods/Kingfisher/Sources/ImagePrefetcher.swift:198-230 | for every input and limit with two slots, a run with one untracked download that completes while it is in flight |
| PrefetcherTheorems.RepeatedURLCompletesEarly | Pods/Kingfisher/Sources/ImagePrefetcher.swift:198-230 | for every input and limit with two slots and every two positions with the same URL, a run that completes while one of them is in flight |
| PrefetcherTheorems.StoppedStillStartsIff | Pods/Kingfisher/Sources/ImagePrefetcher.swift:190-267 | a stopped prefetcher has a continuation that starts a download if and only if a block was queued and a resource is pending |
| PrefetcherTheorems.DownloadsAfterStop | Pods/Kingfisher/Sources/ImagePrefetcher.swift:190-267 | and it starts no more of them than blocks were queued |
| PrefetcherTheorems.StoppedPrefetcherStillStarts | Pods/Kingfisher/Sources/ImagePrefetcher.swift:190-276 | and one can start a resource that was already reported as failed |
| Prefetcher.ImagePrefetcher.StartPrefetcher | Pods/Kingfisher/Sources/ImagePrefetcher.swift:155-184 | the start loop fills the first slots in order |
| Prefetcher.ImagePrefetcher.RunCompletion | Pods/Kingfisher/Sources/ImagePrefetcher.swift:198-230 | the download handler moves its resource to a result list and queues the next block, or completes when stopped and idle |
| Prefetcher.ImagePrefetcher.RunNext | Pods/Kingfisher/Sources/ImagePrefetcher.swift:258-267 | a queued block starts the next resource, or completes when no task is left |
| Prefetcher.ImagePrefetcher.StopPrefetcher | Pods/Kingfisher/Sources/ImagePrefetcher.swift:190-196 | stopping cancels the tasks unless everything is finished |
| ImageCacheTheorems.AnswersWereStored | Pods/Kingfisher/Sources/ImageCache.swift:200-398 | under any interleaving of calls, io blocks, decodings and evictions, whatever the cache answers was stored under a computed key with the same file name |
| ImageCacheTheorems.AnswersAreOwnImages | Pods/Kingfisher/Sources/ImageCache.swift:645-673 | with distinct file names and a serializer that reads back what it wrote, it was stored for exactly that key |
| ImageCacheTheorems.StoredIsServed | Pods/Kingfisher/Sources/ImageCache.swift:200-307 | under any interleaving an image stored for memory only or for both levels, whatever the serializer makes of it, is what every retrieval of its key, memory-only or not, gets at once from memory, until that key is stored, removed from memory, evicted or cleared, or a load or decoding of it ends |
| ImageCacheTheorems.FileIsLastWritten | Pods/Kingfisher/Sources/ImageCache.swift:200-427 | under any interleaving a file that no cleaning deletes holds, once the io queue is empty, what the last call that wrote, removed or cleared it asked for |
| ImageCacheTheorems.AnswersExactly | Pods/Kingfisher/Sources/ImageCache.swift:200-427 | after any drained calls, with memory-only stores, one-level removals and memory-only retrievals among them, a retrieval gets exactly one answer: the image that the last call about the key put into memory, else what the serializer makes of what the last call about its file wrote, else nothing; with the cache type that says which |
| ImageCacheTheorems.CallsHold | Pods/Kingfisher/Sources/ImageCache.swift:200-427 | memory and every file are what the last calls about them left |
| ImageCacheTheorems.CacheIsAMap | Pods/Kingfisher/Sources/ImageCache.swift:200-427 | with the queues drained between calls and every write going through to the disk the cache is a map: a key with a file gets the last image stored, a removed or unknown key nothing, and any answer is the last image stored, from memory or its file, whatever memory evicts |
| ImageCacheTheorems.CallsRepresent | Pods/Kingfisher/Sources/ImageCache.swift:200-427 | what the last calls left in memory and on the disk represents that map |
| ImageCacheTheorems.RemovalFailsIff | Pods/Kingfisher/Sources/ImageCache.swift:250-364 | a removal made in any state is undone exactly when the image was being decoded or a queued load of the key will find a file |
| ImageCacheTheorems.GoneForGood | Pods/Kingfisher/Sources/ImageCache.swift:250-364 | otherwise the key stays gone and is answered with nothing, whatever runs, until it is stored again |
| ImageCacheTheorems.RetrieveThenRemove | Pods/Kingfisher/Sources/ImageCache.swift:296-364 | the shortest run in which a queued load brings a removed image back |
| ImageCacheTheorems.DecodingThenRemove | Pods/Kingfisher/Sources/ImageCache.swift:319-337 | and one in which a background decoding does, with nothing queued |
| ImageCacheTheorems.CollideIff | Pods/Kingfisher/Sources/ImageCache.swift:734-742 | two keys have processors under which they collide if and only if they are equal or one extends the other from an `@` on |
| ImageCacheTheorems.AnsweredOnce | Pods/Kingfisher/Sources/ImageCache.swift:296-364 | every retrieval is answered at most once, and exactly once when it was not cancelled and the queues are empty |
| ImageCacheTheorems.CancelledIsSilent | Pods/Kingfisher/Sources/ImageCache.swift:296-364 | a retrieval cancelled before its image is being decoded is never answered any more |
| ImageCacheObject.ImageCache.Store | Pods/Kingfisher/Sources/ImageCache.swift:200-237 | storing changes memory at once and the disk through a queued block |
| ImageCacheObject.ImageCache.RetrieveImage | Pods/Kingfisher/Sources/ImageCache.swift:296-364 | a memory hit or a memory-only miss is answered at once, anything else queues a load |
| ImageCacheObject.ImageCache.LoadFromDisk | Pods/Kingfisher/Sources/ImageCache.swift:319-358 | the load block puts what it finds into memory and answers, or leaves it to the process queue |
| ImageCacheObject.ImageCache.RunNextBlock | Pods/Kingfisher/Sources/ImageCache.swift:414-449 | each block of the io queue does what its event does; a cleaning is given the files on the disk and deletes exactly the condemned ones |
| DiskCleanup.TravelCachedFiles | Pods/Kingfisher/Sources/ImageCache.swift:501-540 | one pass lists, each as often as the directory does, the files whose access date is at or before the limit date, and apart from them those that have a size; directories are neither, and the size found is that of the files that have not expired |
| DiskCleanup.CleanExpiredDiskCache | Pods/Kingfisher/Sources/ImageCache.swift:441-487 | every file accessed at or before the limit date is deleted, another one only if the files that have not expired exceed a positive size limit; then files go until less than half of the limit is left or all with a size are gone, the last was needed, and with dates on all of them none deleted was accessed after one kept; the running total is the size of what remains and never underflows |
| DiskCleanup.CondemnedAreListed | Pods/Kingfisher/Sources/ImageCache.swift:448-486 | only listed files are deleted, and no directory |
| DiskCleanup.CondemnedIsClean | Pods/Kingfisher/Sources/ImageCache.swift:441-487 | the same of whatever a cleaning block of the queue deletes |
| DiskCleanup.EvictionStopsFirst | Pods/Kingfisher/Sources/ImageCache.swift:471-486 | eviction removes at least one file and stops at the first total below half the limit, or when no counted file is left |
| DiskCleanup.CleaningKeepsLimit | Pods/Kingfisher/Sources/ImageCache.swift:454-487 | what remains fits the limit, and nothing evicted was accessed after anything kept |
| DiskCleanup.SameTotal | Pods/Kingfisher/Sources/ImageCache.swift:716-720 | sorting the files changes no total |
| ManagerTheorems.CompletesOnceIff | Pods/Kingfisher/Sources/KingfisherManager.swift:118-296 | for every combination of options, cache answers, processor results and downloads the completion handler is called at most once, and exactly once if and only if it is not an image without data under `waitForCache`; the result is the one of the decision table |
| ManagerTheorems.CompletesOnce | Pods/Kingfisher/Sources/KingfisherManager.swift:147-207 | a downloader that pairs images with their data loses no retrieval |
| ManagerTheorems.StoresAndDownloads | Pods/Kingfisher/Sources/KingfisherManager.swift:162-200 | what a finished retrieval has stored, for the processor and as original, and that it downloads once or never |
| ManagerTheorems.RunsEnd | Pods/Kingfisher/Sources/KingfisherManager.swift:209-296 | no retrieval takes more than six callbacks |
| KingfisherManager.Retrieval.DownloadFinished | Pods/Kingfisher/Sources/KingfisherManager.swift:160-206 | the download callback: not modified, stored, completed or left to the store's handler |
| KingfisherManager.Retrieval.Processed | Pods/Kingfisher/Sources/KingfisherManager.swift:266-293 | the processor's callback on a cached original |
| AnimatorTheorems.ShownFrame | Pods/Kingfisher/Sources/AnimatedImageView.swift:389-484 | after any interleaving of ticks and refills, with T ticks advanced, the frame index is T mod n and the loop count T / n; while fewer refills than slots are outstanding the frame shown is source frame T mod n, except tick k alone when n = k + 1 |
| AnimatorTheorems.RunKeepsRing | Pods/Kingfisher/Sources/AnimatedImageView.swift:446-484 | with D refills done, slot t mod k holds frame t mod n for every t in [D, D + k), and the refill queue lists the slots to come |
| AnimatorTheorems.PrepareEstablishes | Pods/Kingfisher/Sources/AnimatedImageView.swift:389-403 | preparing the frames sets the ring up for any number of frames and slots |
| AnimatorTheorems.PreloadFillsWindow | Pods/Kingfisher/Sources/AnimatedImageView.swift:480-484 | a refill overwrites just the slot that the window leaves behind |
| AnimatorTheorems.TimeIsConserved | Pods/Kingfisher/Sources/AnimatedImageView.swift:446-472 | the time that has passed is the durations of the frames shown to their end plus what is carried over |
| AnimatorTheorems.TickMovesOn | Pods/Kingfisher/Sources/AnimatedImageView.swift:446-472 | in every reachable state a tick carries over its time, of itself at most a second, and moves on by one frame exactly when that reaches the duration of the frame shown |
| AnimatorTheorems.CarriesNoDebt | Pods/Kingfisher/Sources/AnimatedImageView.swift:446-452 | and what is carried over is never negative |
| Ring.PosIsRemainder | Pods/Kingfisher/Sources/AnimatedImageView.swift:456-471 | counting up and wrapping to zero yields remainder and quotient |
| AnimatorObject.Animator.UpdateCurrentFrame | Pods/Kingfisher/Sources/AnimatedImageView.swift:446-472 | the tick in place, with a report for each finished loop |
| AnimatorObject.Animator.PreloadFrame | Pods/Kingfisher/Sources/AnimatedImageView.swift:480-484 | the refill in place writes one slot of the array |
| MD5Implementation.MD5.Calculate | Pods/Kingfisher/Sources/String+MD5.swift:206-284 | the implementation returns the digest of sections 3.1 to 3.5 of RFC 1321, for messages of any number of blocks |
| MD5Implementation.TurnIsOperation | Pods/Kingfisher/Sources/String+MD5.swift:235-264 | moving the values of the four variables once is the standard's operation on renamed registers, for each of its 64 rows |
| MD5Implementation.Turn | Pods/Kingfisher/Sources/String+MD5.swift:235-264 | the loop body computes the standard's operation in spite of its own word index, auxiliary function and order of summation |
| MD5Tables.TablesAgree | Pods/Kingfisher/Sources/String+MD5.swift:181-254 | computed word indices and listed shifts are those of the standard's four times sixteen operations |
| MD5Implementation.HashesAreInitial | Pods/Kingfisher/Sources/String+MD5.swift:204 | the initial hash values are the words of the bytes in section 3.3 of RFC 1321 |
| MD5Spec.RotatesAround | Pods/Kingfisher/Sources/String+MD5.swift:167-169 | the shift expression is the circular rotation for every shift amount in use |
| MD5Implementation.MainLoop | Pods/Kingfisher/Sources/String+MD5.swift:235-264 | the 64 turns perform the 64 operations of the standard |
| MD5Implementation.ProcessChunks | Pods/Kingfisher/Sources/String+MD5.swift:138-165 | the iterator yields the whole blocks of the padded message in order, none left over, and the chaining value follows them |
| MD5Implementation.MD5.Prepare | Pods/Kingfisher/Sources/String+MD5.swift:102-119 | the padding loop adds fewer than 64 zero bytes, as many as section 3.1 asks for |
| MD5Implementation.ArrayOfBytes | Pods/Kingfisher/Sources/String+MD5.swift:51-74 | the length field, written from the back, is the little-endian number reversed, zero-filled or cut to the length asked for |
| MD5Implementation.ToUInt32Array | Pods/Kingfisher/Sources/String+MD5.swift:122-136 | the words of a chunk, low-order byte first |
| MD5Digest.PaddedLength | Pods/Kingfisher/Sources/String+MD5.swift:102-119 | the padded length is the least multiple of 64 that holds the message and nine more bytes |
| MD5Digest.UnpadUndoesPad | Pods/Kingfisher/Sources/String+MD5.swift:207-216 | reading the length field recovers the message, for bit counts that fit in the integer |
| MD5Digest.PaddingIsInjective | Pods/Kingfisher/Sources/String+MD5.swift:102-119 | no two such messages have the same padding |
| MD5Digest.OutputReadsBack | Pods/Kingfisher/Sources/String+MD5.swift:272-283 | the sixteen output bytes read back as the four registers |
| MD5Implementation.Hex | Pods/Kingfisher/Sources/String+MD5.swift:27-46 | two lower-case digits a byte, from which the bytes can be read back |
| RetryTheorems.RunKeepsRegistry | Pods/Alamofire/Source/SessionDelegate.swift:166-179 | in every reachable state a request is registered under its delegate's own task or has ended; a decision is owed exactly about registered attempts that completed |
| RetryTheorems.RegisteredOnce | Pods/Alamofire/Source/SessionDelegate.swift:166-179 | each request is registered under at most one task |
| RetryTheorems.LastAttemptOnly | Pods/Alamofire/Source/TaskDelegate.swift:213-284 | over every run of attempts and retries the data are the chunks delivered for the last attempt until it ended, in order and whatever is delivered for older tasks; the byte count is their length; the retry count is the number of tasks built for retries |
| RetryTheorems.LateChunkIsIgnored | Pods/Alamofire/Source/SessionDelegate.swift:553-559 | once no request is registered under a task, none ever is again and its chunks change nothing, whatever runs in between |
| RetryTheorems.RetryRetiresTask | Pods/Alamofire/Source/SessionManager.swift:845-868 | a retry takes the registration from the old task |
| RetryTheorems.RequestsObey | Pods/Alamofire/Source/SessionManager.swift:253-293 | over every run the validations of a request are those that the caller added, in order; one without a task keeps the error it began with or the last failure to build a task, and its handlers are released exactly when the caller resumed it, or when requests start by themselves and no retrier was asked or it brought no task |
| RetryTheorems.CompletionIsJudged | Pods/Alamofire/Source/SessionDelegate.swift:436-497 | a completed attempt ends with the first failure among all validations that the run added to its request, in that order and across its retries, shown the response and the chunks of its task, else with the transport error; the retrier is asked about an error, and without either the handlers run |
| RetryTheorems.JudgedIsFirstFailure | Pods/Alamofire/Source/Validation.swift:170-184 | closures that each check for an earlier error yield the first failure |
| RetryTheorems.DecisionIsKept | Pods/Alamofire/Source/SessionDelegate.swift:475-496 | however long the retrier takes and whatever runs in between, its answer is about the same attempt and verdict |
| RetryTheorems.DecisionEnds | Pods/Alamofire/Source/SessionManager.swift:845-868 | without a retry the request ends with the verdict, when the new task cannot be built with that failure, and a retry leaves nothing of the attempt |
| RetryTheorems.EndedWithLastVerdict | Pods/Alamofire/Source/SessionDelegate.swift:436-497 | over every run a request that has ended carries the verdict on its last attempt, or the failure to build the task for the retry that was to follow it |
| RetryTheorems.EndedForGood | Pods/Alamofire/Source/SessionDelegate.swift:436-458 | a request that has ended keeps its error, data and task in every continuation |
| RetryTheorems.SuspendedWhileOpen | Pods/Alamofire/Source/Request.swift:198-210 | across all retries the handlers of an open request stay suspended if and only if the caller did not resume it while a decision about its adaptation was open |
| RetryTheorems.EarlyResumeExample | Pods/Alamofire/Source/SessionManager.swift:870-895 | a caller that does sees its handlers run while the retried task is under way |
| AlamofireSession.DataTaskDelegate.SetTask | Pods/Alamofire/Source/TaskDelegate.swift:57-82 | a new task resets error, data and byte count, and leaves the queue as it is |
| AlamofireSession.DataRequest.RunValidations | Pods/Alamofire/Source/Validation.swift:170-184 | the loop over the validation closures, each looking at the error so far |
| AlamofireSession.Session.Begin | Pods/Alamofire/Source/SessionManager.swift:253-266 | a request whose task was built is registered under it |
| AlamofireSession.Session.BeginFailed | Pods/Alamofire/Source/SessionManager.swift:275-293 | one whose task was not built carries the error and asks the retrier about a failed adaptation |
| AlamofireSession.Session.Complete | Pods/Alamofire/Source/SessionDelegate.swift:436-497 | completion in place: validations, then the retrier or the delegate |
| AlamofireSession.Session.Retry | Pods/Alamofire/Source/SessionManager.swift:845-868 | a retry in place: registry, task, count, or the failure to build a task |
| AlamofireSession.Session.Decide | Pods/Alamofire/Source/SessionDelegate.swift:475-496 | the retrier's answer about a completed attempt |
| AlamofireSession.Session.DecideAdapt | Pods/Alamofire/Source/SessionManager.swift:870-895 | the retrier's answer about a failed adaptation |
| MultipartTheorems.ParseUndoesEncode | Pods/Alamofire/Source/MultipartFormData.swift:348-455 | parsing what is encoded, after section 5.1.1 of RFC 2046, gives exactly the parts back if and only if there is one, no header line holds a line break and no key the separator, and no block between two boundaries contains the delimiter |
| MultipartTheorems.ParsedIsCarried | Pods/Alamofire/Source/MultipartFormData.swift:421-430 | whatever parses has at least one part, and header fields that fit on a line |
| MultipartTheorems.BoundaryFreePartsRoundTrip | Pods/Alamofire/Source/MultipartFormData.swift:348-455 | it suffices that no header line and no body contains the boundary behind two dashes |
| ByteSearch.FindsDelimiter | Pods/Alamofire/Source/MultipartFormData.swift:53-76 | a delimiter that cannot overlap itself is found where it stands, behind anything free of it |
| MultipartTheorems.BlockParses | Pods/Alamofire/Source/MultipartFormData.swift:421-430 | printed header lines and body parse back to the part |
| MultipartTheorems.ParsedPrints | Pods/Alamofire/Source/MultipartFormData.swift:421-430 | whatever parses as a part prints as the same block |
| MultipartTheorems.EncodedSplits | Pods/Alamofire/Source/MultipartFormData.swift:348-364 | in the encoding every block stands between a boundary and a delimiter |
| MultipartTheorems.RandomBoundaryHasNoBreak | Pods/Alamofire/Source/MultipartFormData.swift:58-60 | generated boundaries hold no line break and have 35 bytes |
| Multipart.MultipartFormData.Encode | Pods/Alamofire/Source/MultipartFormData.swift:348-364 | returns the encoding of the appended parts, or the first recorded or read error |
| Multipart.MultipartFormData.EncodeBodyStream | Pods/Alamofire/Source/MultipartFormData.swift:432-455 | the read loop returns the whole stream for any sizes of the reads |
| Multipart.MultipartFormData.WriteBuffer | Pods/Alamofire/Source/MultipartFormData.swift:517-533 | the partial-write loop keeps what is written plus what remains equal to the data, ends, and writes everything that fits |
| Multipart.MultipartFormData.WriteBodyStream | Pods/Alamofire/Source/MultipartFormData.swift:476-500 | reading and writing in pieces copies the stream |
| Multipart.MultipartFormData.WriteEncodedData | Pods/Alamofire/Source/MultipartFormData.swift:374-398 | past the four checks it succeeds exactly when no part and no write fails, and then the file is what `encode` would return if and only if that fits; after an error it is a front of that; which error is reported in each case |
| Multipart.WriteToFullFile | Pods/Alamofire/Source/MultipartFormData.swift:517-533 | a run that reports success although nothing was written: the file has no space |
| Multipart.MultipartFormData.Append | Pods/Alamofire/Source/MultipartFormData.swift:332-335 | appends one part; if its stream belongs to an earlier part already, nothing is left for it to read |
| Multipart.MultipartFormData.SetBodyPartError | Pods/Alamofire/Source/MultipartFormData.swift:576-579 | only the first error is kept |
| PercentEncoding.DecodeUndoesEscape | Pods/Alamofire/Source/ParameterEncoding.swift:246-286 | percent-decoding inverts the escaping of every string |
| PercentEncoding.EscapeHidesSeparators | Pods/Alamofire/Source/ParameterEncoding.swift:246-251 | an escaped string holds no `&` and no `=` |
| PercentEncoding.AllowedExactly | Pods/Alamofire/Source/ParameterEncoding.swift:246-251 | exactly letters, digits, and `-`, `.`, `_`, `~`, `/`, `?` are sent as they are |
| QueryString.Escape | Pods/Alamofire/Source/ParameterEncoding.swift:266-286 | escaping fifty Characters at a time gives what escaping the whole string gives, and ends |
| QueryString.ParseUndoesPrint | Pods/Alamofire/Source/ParameterEncoding.swift:288-296 | splitting a printed query on `&` and `=` and decoding gives back its pairs, whatever octets they hold |
| QueryString.QueryRoundTrip | Pods/Alamofire/Source/ParameterEncoding.swift:206-296 | the query of nested parameters reads back as one pair a leaf in traversal order with sorted top-level keys, and depends only on the dictionary |
| QueryString.LeavesOnePairEach | Pods/Alamofire/Source/ParameterEncoding.swift:206-230 | every scalar below a value gives one pair, whose key extends the value's |
| QueryString.LeavesArePrinted | Pods/Alamofire/Source/ParameterEncoding.swift:206-230 | in order, under the key that spells out the way to it, names in brackets and items with an empty pair or nothing, and with the text of its value, `1` or `0`, or `true` or `false` for a Boolean |
| QueryString.SortedListingIsUnique | Pods/Alamofire/Source/ParameterEncoding.swift:291-292 | the order in which the dictionary enumerates its keys does not show |
| QueryString.FieldsOfAppended | Pods/Alamofire/Source/ParameterEncoding.swift:184-188 | a query joined to an existing one adds its fields behind those |
| QueryString.AppendQuery | Pods/Alamofire/Source/ParameterEncoding.swift:184-188 | empty parameters leave the URL's query alone, others append theirs |
| QueryString.Encoder.QueryComponents | Pods/Alamofire/Source/ParameterEncoding.swift:206-230 | the recursive traversal yields the escaped leaves |
| QueryString.Encoder.Query | Pods/Alamofire/Source/ParameterEncoding.swift:288-296 | the printed query is that of the parameters, keys ascending |
| QueryString.Sorted | Pods/Alamofire/Source/ParameterEncoding.swift:291 | the keys, each once, in ascending order |

## Left out

- `ImageFetchLoad`, tasks and sessions as objects: loads and tasks are numbers in creation order; received bytes, progress, authentication challenges and a missing session are not modelled. The processing block takes the delegate's data and each processor's image as its input.
- Callback queues: a handler counts as called when its block runs; `safeAsync` and the main queue only delay it.
- Downloader processing on several URLs in parallel: the blocks of the concurrent process queue are interleaved, not overlapped.
- Prefetcher with `waitForCache`, and changes of its limit after the start.
- Memory cache costs, cost limits and background tasks: an eviction may hit any key at any time, which covers them.
- Image decoding, modifiers and serializers in the cache: decoded and modified images count as the stored one, and a file is known by what it decodes to.
- Failing file operations: directory creation and file removal always succeed, so a cleaning subtracts only what it deleted.
- Completion handlers of store, remove, clear and clean, and retrievals without a handler, which do nothing.
- Direct synchronous reads (`retrieveImageInDiskCache`, `imageCachedType`) and the deprecated cache checks.
- DiskCleanup.SortedByDate: for files without a date only the permutation is stated, because the source's comparison is no order on them.
- Cancelled image tasks in the manager: they end like any failed download; several caches are one World of answers.
- Animator: image scaling, the display link and the delegate; `IsReachMaxRepeatCount` only compares the loop count.
- MD5 sine table: its 64 constants are taken as given for standard and implementation alike; the host is little-endian, and a string that has no UTF-8 form keeps its own name.
- Retry of download, upload and stream requests, resume data, temporary files, redirects and progress: only data requests are modelled, with the override closures unset and no data stream closure.
- Status-code and content-type checks: any function of response and data may be a validation, which covers them.
- Several tasks of one session completing at the same instant: callbacks are steps of one sequence, and a retry's re-registration belongs to its step.
- Multipart content headers, MIME types and file checks on append: a part is its headers in the dictionary's order, and its body; file URLs become streams.
- Multipart encoding twice: flags are never cleared and streams are consumed, so an object is encoded once.
- Query keys in canonical Unicode order: keys are compared octet by octet; numbers are known by their description, and strings whose Characters merge across a concatenation escape the same because escaping does not depend on where Characters end.
- The fallback to the unescaped string when the platform cannot escape it.
- Request bodies and headers of URL-encoded requests, JSON and property list encodings.
- Network Extension code, rule engine, views, image filters and the logging, database and package files of the repository.
