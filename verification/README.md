# Verified models of the Kido client and its benchmark tools

This project models the parts of the repository whose correctness lies in state, interleaving or
arithmetic, and proves what they promise. The modules follow the program:

- `PaneProtocol`, `PaneInvariants`, `PaneTheorems`: a pane's decoder thread, its serial scrolling
  queue and main, which share the locked cells `content`, `outputUpdate`, `target` and `viewport`, as
  a step relation with program counters. What main still has to do in its turn is a list, so other
  actors may step between any two of its sections. The terminal is seen through its scroll position,
  which output and scrolling move freely.
- `PaneProgress`, `PaneOrphan`: a pane that is left alone comes to rest, and the one entry into copy
  mode that rest leaves unfinished.
- `PaneTurns`, `PaneViews`: the pane's own functions on its fields, as the source writes them, each
  proved to leave what the protocol's lists of steps leave.
- `ImageProtocol`, `ImageTheorems`, `PaneImages`: walks, workers, retries and the stop that complete pending image
  frames, and the byte-budgeted cache of bodies.
- `Link`, `LinkWrites`, `ProxyLane`: the delayed, rate-limited lane of the proxy and one turn of its loop. Time and
  tokens are real numbers.
- `Shell`, `UploadNames`, `Upload`: quoting against the shell's word splitting; names, stream and
  remote script of an upload.
- `Rects`, `CursorRects`, `CursorTheorems`: rectangle subtraction and the z-ordered sweep of cursor
  rectangles.
- `Utf8`, `Screens`, `ScreenTheorems`, `WebSockets`: the benchmark client's incremental parsers.
- `SessionViews`, `SessionTheorems`: hot windows, the order they were shown in, and eviction.
- `WindowFrames`: placing a window on a screen and beside the open ones.
- `Drains`, `DrainTheorems`: the group that counts an SSH connection's helpers and the stop that
  waits for it.
- `Rows`, `Runs`, `Sets`, `Wrappers`: wishes and whole rows, runs of a step relation, sizes of sets, and
  the two shared result types.

Where a class changes its fields, its methods are proved against functions on values, and the
theorems are about those functions and about runs of them. Input from outside (the surface's answers,
bytes read, what `os.write` takes, sizes of files, times, random masks) is a parameter or a label, so
every theorem holds for all of it.

Six promises hold only under a condition, which the project states and proves exactly:

- An entry into copy mode is not completed if the view closes during the restore it waits for
  (`PaneTheorems.EntryCompletesExactly`); its deadline ends it (`PaneOrphan.DeadlineEndsEntry`).
- On a remote file system that folds case, files whose names differ only in case overwrite each other
  (`Upload.UploadIsFaithfulExactly`).
- An empty path in `Upload.text` is left bare and disappears (`Shell.TextRoundTrips`).
- A chunk that ends inside a UTF-8 character changes the screen (`Screens.ChunkingIsHarmlessExactly`).
- A window may be placed exactly over another (`WindowFrames.CollidesExactly`, `FullScreenCollides`).
- A master that does not serve yet, or that a relaunch has stopped, does not outlive the helpers of a
  stopped connection (`DrainTheorems.StopSparesMasterExactly`).

## Model

| member | source | states |
|---|---|---|
| `PaneTheorems.ParsingCountsFeeds` | app/App/PaneView.swift:840-930 | In every run `parsing` is the number of feeds admitted and not published, plus `completed`, plus what main took and has yet to subtract; a frozen pane has no feed anywhere. |
| `PaneTheorems.FrozenIsSilent` | app/App/PaneView.swift:840-876 | From the moment the pane is frozen until endCopy's section, whatever the three actors do, no feed runs and none writes the surface. |
| `PaneTheorems.DirtyRemembersRefusals` | app/App/PaneView.swift:840-852 | Between main's turns `dirty` holds exactly when a feed was refused since the last thaw; with the freeze off none was. |
| `PaneTheorems.ThawRecovers` | app/App/PaneView.swift:1074-1095 | The section that ends copy mode, from entering or frozen, clears `dirty` and leads to a resync exactly when a feed was refused. |
| `PaneTheorems.EntryCompletesExactly` | app/App/PaneView.swift:1049-1057 | At rest, with no restore running, an entry is unfinished exactly if the view closed during a restore that it still waited for. |
| `PaneOrphan.EntryMayBeOrphaned` | app/App/PaneView.swift:827-829 | Such a state is reached: a feed holds the entry up, a restore begins, the feed is applied meanwhile, and the view closes; nothing is left that completes the entry. |
| `PaneOrphan.DeadlineEndsEntry` | app/App/PaneView.swift:1024-1031 | The deadline of the entry ends it from any such state, and asks for a resync exactly if a feed was refused. |
| `PaneTheorems.RequestsAreServed` | app/App/PaneView.swift:878-930 | If no capture met a scroll target or a disposed pane, then at rest nothing is requested and the applied snapshot was read after the last request. |
| `PaneTheorems.OpenRequestWasSkipped` | app/App/PaneView.swift:884-895 | At rest a request is open only because a capture was skipped since the last publication began. |
| `PaneTheorems.LatestMeansPosted` | app/App/PaneView.swift:897-918 | `latest` is set exactly while one applyOutputUpdate is posted or about to be; never are two outstanding. |
| `PaneTheorems.FeedMovesTarget` | app/App/PaneView.swift:853-868 | Between its two sections a feed moves a positive target, if it pinned one, by exactly the viewport distance that its own output caused, clamped at 0, whatever snaps and resets main ran in between. Movement outside the `viewport` lock, as a search makes it, is added; without any that part is 0. |
| `PaneTheorems.ClearedStaysCleared` | app/App/PaneView.swift:435-449 | A cleared target stays cleared, through any feeds, snaps and scroll jobs, until the user asks for a distance. |
| `PaneTheorems.CompletionMatches` | app/App/PaneView.swift:347-376 | At most one scroll job is queued, running or ending, and its end carries the revision in `scrollPending`. |
| `PaneTheorems.ScrollSettles` | app/App/PaneView.swift:334-376 | At rest the presented distance is the target, a set target is the distance that the surface was last moved to, and no job is pending, after any mix of requests, snaps, resets and feeds, unless the surface refused a position since a scroll job was last presented. |
| `PaneProgress.InternalStepCounts` | app/App/PaneView.swift:301-449 | Every step that nobody outside causes, except output, lowers a measure, and output does not raise it, whatever the surface answers. |
| `PaneProgress.RestIsReached` | app/App/PaneView.swift:840-930 | A pane that is left alone takes no more steps besides output than the measure of its state says, in any order of the jobs. |
| `PaneProgress.RestIsWhereNothingRuns` | app/App/PaneView.swift:840-930 | A state is at rest exactly if no such step can be taken: the protocol has no deadlock. |
| `PaneTheorems.TargetIsNeverNegative` | app/App/PaneView.swift:334-449 | In no run does a request, feed, snap or reset make the target negative. |
| `PaneTheorems.RequestSetsWish` | app/App/PaneView.swift:334-345 | The target that a request puts on main's list is the wished distance if the history has it, the nearer end of the history otherwise, and nothing is put there exactly if that is the distance before. |
| `PaneTheorems.OvertakenJobsPresentNothing` | app/App/PaneView.swift:359-376 | A scroll job whose intent has been overtaken when it ends changes neither the presented distance nor the shown geometry. |
| `PaneTheorems.SnapAligns` | app/App/PaneView.swift:386-395 | A snap moves the target to the nearest whole row, whether or not the surface accepts it, and never sets one. |
| `PaneTheorems.StepKeepsInv` | app/App/PaneView.swift:301-449 | Every step of the decoder, the serial queue and main keeps the eighteen parts of the invariant. |
| `PaneTheorems.ReachableInv` | app/App/PaneView.swift:499 | The invariant holds in every state of every run from the initial fields. |
| `PaneInvariants.ShapedKept` | app/App/PaneView.swift:301-313 | Each step leaves main's remaining turn well formed: the steps that must stand first do. |
| `PaneInvariants.AccountedKeptByMain` | app/App/PaneView.swift:913-918 | Main's steps keep the account of `parsing`. |
| `PaneInvariants.AccountedKeptByOthers` | app/App/PaneView.swift:840-911 | The decoder's and the queue's steps keep the account of `parsing`. |
| `PaneInvariants.SilentKept` | app/App/PaneView.swift:1053-1056 | Each step keeps `parsing` at 0 while frozen. |
| `PaneInvariants.PostedKept` | app/App/PaneView.swift:897-918 | Each step keeps `latest` set exactly while one application is outstanding. |
| `PaneInvariants.CapturesKept` | app/App/PaneView.swift:884-895 | Each step keeps `capturing` equal to the number of captures under way, at most one. |
| `PaneInvariants.ModesKept` | app/App/PaneView.swift:1020-1095 | Each step keeps `copyMode` and `freeze` in agreement. |
| `PaneInvariants.GuardedKeptByOthers` | app/App/PaneView.swift:1049-1070 | No other actor breaks the rest of an entry that main is in the middle of. |
| `PaneInvariants.RecoveredKept` | app/App/PaneView.swift:1074-1095 | Each step keeps refused feeds remembered by `dirty` or by a resync about to be asked for. |
| `PaneInvariants.PursuedKept` | app/App/PaneView.swift:878-911 | Each step keeps every open request pursued by a snapshot, a capture or a step ahead, unless a capture was skipped. |
| `PaneInvariants.CoalescedKept` | app/App/PaneView.swift:347-376 | Each step keeps at most one scroll job, carrying the pending revision. |
| `PaneInvariants.SettlingKeptByMain` | app/App/PaneView.swift:913-930 | Main's other steps keep a changed target on its way to be presented. |
| `PaneInvariants.SettlingKeptByScroll` | app/App/PaneView.swift:334-449 | The scroll steps keep a changed target on its way to be presented. |
| `PaneInvariants.PinnedKept` | app/App/PaneView.swift:853-866 | Each step keeps the difference of the viewport since a feed's first section equal to the adjustments plus the feed's own effect. |
| `PaneViews.PaneView.constructor` | app/App/PaneView.swift:499 | The initial fields are an initial state of the protocol. |
| `PaneViews.PaneView.Feed` | app/App/PaneView.swift:840-876 | An undisturbed feed is refused by a frozen pane, and otherwise plays the protocol's steps from admission to publication; a positive target goes along with the surface. |
| `PaneViews.PaneView.ProcessOutput` | app/App/PaneView.swift:853-868 | The two sections around the output play the protocol's steps, for any number of parts of output between them. |
| `PaneViews.PaneView.PublishOutputUpdate` | app/App/PaneView.swift:897-911 | A publication plays the protocol's steps and posts a closure only if no snapshot waited. |
| `PaneViews.PaneView.RunScrollJob` | app/App/PaneView.swift:351-359 | The job reads target and viewport and posts its end as the protocol's steps do. |
| `PaneViews.PaneView.EndScrollJob` | app/App/PaneView.swift:359-375 | A job that is not the pending one changes nothing; one with the current intent is presented if the surface moved, and a new job is pending exactly if intent or target have changed. The closure that ends a job leaves what the protocol's step and the steps it leads to leave. |
| `PaneViews.PaneView.QueueScroll` | app/App/PaneView.swift:347-351 | A job with the current intent is queued exactly if none is pending, as in the protocol's step. |
| `PaneViews.PaneView.RequestScrollDistance` | app/App/PaneView.swift:334-345 | The target becomes the wish if it lies between 0 and the history, the history if it is larger, 0 if it is negative; nothing changes exactly if that is the distance before; otherwise the intent is new and a job pending. These are the protocol's steps of a request. |
| `PaneViews.PaneView.SnapScroll` | app/App/PaneView.swift:386-401 | A set target moves to the nearest whole row, and what the surface accepts is presented and accounted for; without one only the intent is new. The whole function, the surface's answer included, is the steps from the new intent to what is presented. |
| `PaneViews.PaneView.ResetScroll` | app/App/PaneView.swift:435-449 | A snap, a new intent, the cleared target and the move to the bottom, in this order, are the steps of a reset. |
| `PaneViews.PaneView.EndCopy` | app/App/PaneView.swift:1074-1095 | The section and the resync it may ask for are the steps that end copy mode. |
| `PaneViews.PaneView.CompleteEntry` | app/App/PaneView.swift:1049-1072 | Section, scroller, snap and selection of the cursor are the steps of an entry. |
| `PaneViews.PaneView.StartCopy` | app/App/PaneView.swift:1020-1034 | Copy mode is entered exactly if it may be, the view is alive, no restore runs and it is off; while a feed runs the entry waits. Refusal or entry, up to its first try to complete, are the steps of a start. |
| `PaneViews.PaneView.UpdateAlternate` | app/App/PaneView.swift:451-459 | Leaving copy mode unless it is being entered, the switch and the reset are the steps of a change of screen. |
| `PaneViews.PaneView.UpdateScroller` | app/App/PaneView.swift:301-313 | From the comparison to the queued job, through a change of screen, are the steps of a scroller update. |
| `PaneViews.PaneView.RefreshScroller` | app/App/PaneView.swift:297-299 | Reads the surface and updates the scroller. |
| `PaneViews.PaneView.CaptureScrollerIfNeeded` | app/App/PaneView.swift:884-895 | The guard and the section are the steps of a capture request. |
| `PaneViews.PaneView.RefreshScrollerAfterRender` | app/App/PaneView.swift:878-882 | The request and the capture are the steps of a refresh. |
| `PaneViews.PaneView.ApplyOutputUpdate` | app/App/PaneView.swift:913-930 | After its two sections the whole function is the steps that the protocol lists, and nothing of its turn is left. |
| `ImageProtocol.KnownKeysHaveOneJob` | app/App/PaneImages.swift:85-129 | Before `stop`, `known` is exactly the set of keys with one job, queued, running or waiting for a retry. |
| `ImageProtocol.TriesAreBounded` | app/App/PaneImages.swift:114-127 | A key is fetched at most once more than there are retry delays, for each stay in `known`. |
| `ImageProtocol.LastWalkIsServed` | app/App/PaneImages.swift:64-129 | With no job outstanding, each key of the last walk was offered to `apply`, is in `gone`, or left `gaveUp` set, so that `retry` walks again; nothing is known, counted or to be rescanned. |
| `ImageProtocol.StopFencesAttachments` | app/App/PaneImages.swift:79-83 | Once `stop` has set its flag no attachment is issued, in any continuation of the run. |
| `ImageProtocol.StopReturnsAfterAttachments` | app/App/PaneImages.swift:155-158 | `stop` returns only when no worker is between its check and its attachment. |
| `ImageProtocol.StepKeepsInv` | app/App/PaneImages.swift:64-171 | Every step of walks, workers, retries and `stop` keeps the invariant. |
| `ImageProtocol.NewKeysAre` | app/App/PaneImages.swift:88-93 | A walk's new keys are those pending ones that are neither gone nor known, once each, in the order of their first places. |
| `ImageProtocol.SingleKept` | app/App/PaneImages.swift:87-95 | Each step keeps one job for each known key. |
| `ImageProtocol.CountedKept` | app/App/PaneImages.swift:114-123 | Each step keeps a job's fetches equal to its counted attempts, plus one while it holds an answer. |
| `ImageProtocol.CoveredKept` | app/App/PaneImages.swift:85-129 | Each step keeps every key of the last walk offered, gone, given up, or still on its way. |
| `ImageProtocol.MeetsKnownIs` | app/App/PaneImages.swift:88-93 | A walk asks for a rescan exactly if a key outside `gone` was known before or stands in the list for the second time. |
| `ImageTheorems.AnswersDecide` | app/App/PaneImages.swift:102-123 | In every run a job got one answer for each fetch; all but the last were transient failures, and only NotFound leads to `gone`, only a success to an attachment, only a transient failure to another try. |
| `ImageTheorems.SettledExactly` | app/App/PaneImages.swift:114-123 | Before `stop`, a job whose last answer was transient waits for another try and its key stays known while it was fetched at most as often as there are delays; after one more fetch it is given up; after any other answer its key is just forgotten. |
| `ImageTheorems.GivenUpAfterAllTries` | app/App/PaneImages.swift:115-119 | Before `stop`, a key is given up, and `gaveUp` set, only after exactly one fetch more than there are delays in this stay, all of them transient failures. |
| `ImageTheorems.GoneWasNotFound` | app/App/PaneImages.swift:110-112 | Every key in `gone` was answered NotFound. |
| `ImageTheorems.OfferedWasFetched` | app/App/PaneImages.swift:106-108 | Every frame offered to the surface was fetched. |
| `ImageProtocol.StopEndsFetches` | app/App/PaneImages.swift:64-129 | Once `stop` has set its flag no walk is decided on and no fetch begins; those that run are those that ran. |
| `PaneImages.PaneImages.Walk` | app/App/PaneImages.swift:85-96 | The loop keeps the gone keys that are still pending, adds exactly the keys that are neither gone nor known, once each and in their order, and asks for a rescan exactly if it meets a known one. |
| `PaneImages.PaneImages.Settle` | app/App/PaneImages.swift:114-123 | A delay is returned exactly if the failure is transient, nothing has stopped and fewer attempts are counted than there are delays; then the attempt is counted and the key stays known, otherwise the key is forgotten, and a transient one remembered as given up. |
| `PaneImages.PaneImages.Obtain` | app/App/PaneImages.swift:133-136 | A fetch is asked for exactly if the host is local or no body is remembered; only a remote body is remembered. |
| `PaneImages.PaneImages.Run` | app/App/PaneImages.swift:102-129 | A whole run that nothing interrupts: what is offered, gone, retried, given up and forgotten, for each answer. |
| `PaneImages.PaneImages.Remember` | app/App/PaneImages.swift:138-153 | The cache after the call is the replaced, appended and trimmed cache. |
| `PaneImages.PaneImages.Trim` | app/App/PaneImages.swift:148-151 | The loop evicts from the front until the rest fits. |
| `PaneImages.RememberKeepsBalance` | app/App/PaneImages.swift:138-153 | Before `stop` the order lists the bodies once each, the count is the sum of their sizes and within the budget; the body just remembered survives, eviction is oldest first and takes none too many. |
| `PaneImages.RememberedIs` | app/App/PaneImages.swift:138-153 | Remembering leaves the body itself last, and before it the newest of the others in their order, with their bytes, as many as fit beside it in 16 MiB. |
| `PaneImages.RememberAfterStop` | app/App/PaneImages.swift:79-83 | After `stop` a late body stays cached exactly if it fits beside the bytes counted before, since the count is not reset. |
| `PaneImages.TrimmedIs` | app/App/PaneImages.swift:148-151 | Trimming restores the balance and evicts a prefix of the order that could not be shorter. |
| `Link.BytesAreConserved` | bench/rtt_proxy.py:46-111 | In every run the written bytes are a prefix of those read, and with an open sink read equals written plus queued, byte for byte. |
| `Link.NoByteIsEarly` | bench/rtt_proxy.py:46-77 | No byte leaves before its read time plus the delay. |
| `Link.RateIsBounded` | bench/rtt_proxy.py:59-96 | With a rate, the bytes written in any interval are at most BURST plus rate times its length. |
| `Link.TokensStayInBucket` | bench/rtt_proxy.py:59-62 | Tokens stay between 0 and BURST. |
| `Link.NextWriteIsExact` | bench/rtt_proxy.py:64-83 | The wake is exactly the earliest time at which `write` would call `os.write`, truncation of tokens included. |
| `Link.AskingChangesNothing` | bench/rtt_proxy.py:64-71 | The refill that asking for the wake does changes no later decision. |
| `Link.UnfinishedLanesGiveWork` | bench/rtt_proxy.py:73-102 | After `write`, an unfinished lane has a reader, a writer or a wake, and the wake is later than now. |
| `Link.NoWorkMeansFinished` | bench/rtt_proxy.py:158-161 | A lane has no reader, writer or wake exactly if it is finished. |
| `Link.StepKeepsValid` | bench/rtt_proxy.py:46-111 | Each call keeps conservation, order, bucket and bound. |
| `Link.PassKeepsValid` | bench/rtt_proxy.py:74-100 | Each pass of the write loop keeps them. |
| `Link.ReadKeepsValid` | bench/rtt_proxy.py:46-57 | Reading keeps them. |
| `LinkWrites.WriteAttempts` | bench/rtt_proxy.py:73-102 | A call of `write` is a list of attempts: each sends at least one byte of the first chunk, at most what is offered, until the queue is empty, the first chunk may not leave yet, the sink blocks (it stays open, marked blocked, and nothing is lost) or it fails. |
| `LinkWrites.ReachedIsAttempts` | bench/rtt_proxy.py:75-83 | `os.write` is reached exactly if the first chunk is due and, with a rate, there are tokens for all of it or for 4096 bytes. |
| `LinkWrites.ClosesExactly` | bench/rtt_proxy.py:73-102 | `write` closes an open sink exactly if it reaches an `os.write` that fails, or the source has ended and every queued byte has been sent. |
| `LinkWrites.ClosedMeansDelivered` | bench/rtt_proxy.py:73-107 | In every run a lane whose sink never failed is closed only when the source has ended and every byte that the reads delivered has been written. |
| `LinkWrites.ReceivedIsDelivered` | bench/rtt_proxy.py:46-57 | What counts as read is the concatenation of what the reads of the run delivered. |
| `LinkWrites.DeliveredIsSentOrQueued` | bench/rtt_proxy.py:46-102 | The written bytes are the first ones delivered; while the sink is open the others are queued, each due exactly its delay after it was read. |
| `LinkWrites.QueueIsBounded` | bench/rtt_proxy.py:43-57 | The queue never holds 8 MiB and one read more. |
| `ProxyLane.Lane.Read` | bench/rtt_proxy.py:46-57 | The deque, the count and the open flag after a read, end or error. |
| `ProxyLane.Lane.Refill` | bench/rtt_proxy.py:59-62 | Tokens grow with time up to BURST. |
| `ProxyLane.Lane.NextWrite` | bench/rtt_proxy.py:64-71 | The wake and the refilled lane are those of the specification, for which the wake is exact. |
| `ProxyLane.Lane.Write` | bench/rtt_proxy.py:73-102 | The loop ends in the lane that the answers of `os.write` lead to. |
| `ProxyLane.Lane.Take` | bench/rtt_proxy.py:92-100 | A partial write cuts the first chunk, a whole one removes it. |
| `ProxyLane.Lane.Shut` | bench/rtt_proxy.py:104-107 | A shut lane drops its queue. |
| `ProxyLane.WriteOut` | bench/rtt_proxy.py:73-102 | The call closes an open sink exactly if an `os.write` that it reached failed, or the source has ended and all that was queued is sent. |
| `ProxyLane.Turn` | bench/rtt_proxy.py:148-165 | One turn waits for exactly the readers, writers and wakes of both lanes, and stops exactly when both are finished (stopping always means so; without pending statistics the converse holds). |
| `Upload.Init` | app/App/Upload.swift:20-56 | Files are accepted exactly if there are 1 to 16, each could be opened and, to be copied, has at most 64 MiB, and all together at most 256 MiB; the error is that of the count, of the first bad file or of the sum. Names are safe and distinct, each the cleaned name with the first free number. |
| `Upload.Collect` | app/App/Upload.swift:24-51 | The loop stops at the first refused file and otherwise makes every source. |
| `Upload.Send` | app/App/Upload.swift:226-239 | The stream is what the sources offer in order, cut where a file ended early or the pipe broke. |
| `Upload.SendFile` | app/App/Upload.swift:230-236 | The chunk loop sends at most the declared bytes of one file and says whether all arrived. |
| `Upload.Script` | app/App/Upload.swift:205-217 | The cutting loop is the specified cut of the stream. |
| `Upload.ScriptPublishes` | app/App/Upload.swift:206-217 | A directory is published exactly if the stream is as long as the declared sizes, and then each name has exactly its slice. |
| `Upload.UploadIsPublished` | app/App/Upload.swift:203-239 | From sources to directory, over any pipe and on any remote file system: published exactly if every source yielded what it declared and all of it arrived, and then each file has the bytes of the last name that stands for it. |
| `Upload.UploadIsFaithfulExactly` | app/App/Upload.swift:42-50 | What is published has every source's bytes under its name exactly if names that stand for one file have the same bytes: always where case counts, and on a file system that folds case only then. |
| `Upload.FoldingLosesAFile` | app/App/Upload.swift:45-49 | Names that differ only in case are both accepted, and on such a file system one file is lost. |
| `Upload.ExpectedIs` | app/App/Upload.swift:203-218 | The published directory has exactly the files that the names stand for. |
| `Upload.IntactExactly` | app/App/Upload.swift:226-239 | A file contributes its first bytes, as many as it declared, or all of them if it has become shorter. |
| `UploadNames.CleanedIs` | app/App/Upload.swift:42-43 | Cleaning cuts a name to 128 characters and changes exactly those that are no letter, digit, dot, dash or underscore, and a dot or dash at the start, to an underscore. |
| `UploadNames.NumberedIs` | app/App/Upload.swift:44-49 | The number stands before the extension, behind a dash, or at the end of a name without one. |
| `UploadNames.DecimalReads` | app/App/Upload.swift:48 | A number's digits read back as the number, without a leading zero. |
| `UploadNames.Unique` | app/App/Upload.swift:44-49 | The renaming loop ends, by pigeonhole, at the first number that is free. |
| `UploadNames.CleanedIsSafe` | app/App/Upload.swift:42-43 | A cleaned name is not empty, has only allowed characters, and starts with neither a dot nor a dash, so it is not `.stream`. |
| `UploadNames.NumberedIsInjective` | app/App/Upload.swift:44-49 | Different numbers give different names. |
| `UploadNames.NumberedIsSafe` | app/App/Upload.swift:48 | A numbered name is as safe as the cleaned one. |
| `UploadNames.DecimalIsInjective` | app/App/Upload.swift:48 | Different numbers have different digits. |
| `Shell.QuotingRoundTrips` | app/App/SSH.swift:67-69 | Words quoted and joined are split back by the shell, for every list of strings (sections 2.2.2 and 2.2.3 of the POSIX.1-2017 Shell Command Language). |
| `Shell.CommandsRoundTrip` | app/App/SSH.swift:84-101 | The command lines of a passenger and of a recorded host give `exec` exactly the arguments, a passenger's behind `/usr/bin/env -u SSH_AUTH_SOCK` unless the agent is forwarded. |
| `Shell.TextRoundTrips` | app/App/Upload.swift:241-247 | Text that mixes bare and quoted paths gives back every list of paths without control characters exactly if none is empty: an empty one is left bare and vanishes. |
| `Shell.QuoteIsRead` | app/App/SSH.swift:67-69 | Whatever follows, a quoted word is read as that word. |
| `Shell.QuoteIs` | app/App/SSH.swift:67-69 | Text without a quote stands between single quotes as it is; each quote stands in double quotes of its own. |
| `Shell.TextOfOne` | app/App/Upload.swift:241-247 | A path with a control character is refused, one of plain characters is left bare, any other is quoted. |
| `Rects.SubtractingIsExact` | app/App/PaneChrome.swift:24-39 | A point lies in exactly one rectangle of the result if the receiver holds it and no cut does, otherwise in none; none is empty. |
| `Rects.SubtractingIsDisjoint` | app/App/PaneChrome.swift:24-39 | The rectangles are pairwise disjoint, inside the receiver and outside every cut. |
| `Rects.CutIsExact` | app/App/PaneChrome.swift:28-35 | The four-way split is exact for one cut. |
| `CursorRects.PaneCursorRects` | app/App/WindowView.swift:817-862 | The loops with `result` and `covered` compute the layered sweep: floats from the top, dividers, tiled panes; every rectangle, zoomed or not, lies inside the window and outside the top line. |
| `CursorRects.AddAll` | app/App/WindowView.swift:821-823 | Adding rectangles appends what is left of each inside the window and outside what is covered. |
| `CursorRects.LayerShowsWhatIsUncovered` | app/App/WindowView.swift:821-823 | A layer shows a point as often as it offers it if nothing above covers it, otherwise not at all. |
| `CursorRects.LowerLayersStayBelow` | app/App/WindowView.swift:817-862 | No rectangle of a lower layer meets the top line or what a higher layer covers. |
| `CursorRects.ResultIsLayered` | app/App/WindowView.swift:817-862 | Every rectangle of the result belongs to a layer, and meets nothing that a higher layer covers. |
| `CursorRects.NothingShowsThroughAFloat` | app/App/WindowView.swift:832-862 | Zoomed or not, no cursor rectangle of a later float, a divider or a tiled pane overlaps an earlier float's frame, nor a tiled pane's a divider. |
| `CursorRects.HigherFloatsHideLower` | app/App/WindowView.swift:834-838 | Of two floats, the lower level's rectangles stay out of the higher one's frame. |
| `CursorRects.FloatsAreSorted` | app/App/WindowView.swift:834-838 | The floats are all floating panes, by descending level. |
| `CursorTheorems.CursorsAreExact` | app/App/WindowView.swift:817-862 | At every point inside the window and below the top line each cursor is shown exactly as often as the window's parts say: a float's own where no higher frame lies, below all floats each divider's with its direction, and where no divider lies the terminals'. |
| `CursorTheorems.FloatOffersAre` | app/App/WindowView.swift:838-851 | A dragged float offers the closed hand on its frame and nothing else; any other the open hand on its padding, each edge with its name, and on the terminal its mouse cursor except on an edge or an overlay. |
| `CursorTheorems.DraggedShowsOnlyTheHand` | app/App/WindowView.swift:838-842 | While a float is dragged its frame offers the closed hand once and no other cursor. |
| `CursorTheorems.EdgesAreTheBorder` | app/App/WindowView.swift:558-569 | The edges of a frame at least 10 points wide and high cover exactly its points that are less than 5 points from a side. |
| `CursorTheorems.EdgesAreDisjointExactly` | app/App/WindowView.swift:558-569 | No point is on two edges exactly if the frame is at least 10 points wide and high. |
| `CursorTheorems.EdgesAreInsideExactly` | app/App/WindowView.swift:558-569 | All edges are inside the frame exactly if it is at least 5 points wide and high. |
| `Screens.Screen.Feed` | bench/client.py:131-150 | The loop leaves the cells, the cursor and the waiting bytes of the specification, and raises exactly where it does; what that means for printed bytes is ScreenTheorems.PrintedIsShown. |
| `Screens.Screen.Token` | bench/client.py:140-150 | One token moves the cursor or fills cells; numbers that do not parse raise and change nothing. |
| `Screens.ChunkingDoesNotMatter` | bench/client.py:131-150 | For ASCII bytes every way of cutting a stream into calls gives the same cells, cursor, waiting bytes, and the same raise. |
| `Screens.ChunkingIsHarmlessExactly` | bench/client.py:131-150 | For all bytes: two calls equal one, whatever follows, exactly if the first raises or does not end inside a UTF-8 character. |
| `Screens.MatchIsAToken` | bench/client.py:126 | What is taken is in the pattern's language. |
| `Screens.MatchIsLongest` | bench/client.py:126 | If a token starts the data one is taken, the longest, and for escapes the only one. |
| `ScreenTheorems.PrintedIsShown` | bench/client.py:131-150 | Feeding the printed form of any list of items has exactly their effects in turn: a cursor position with numbers r and c, 1 where one is missing, goes to row r - 1 and column c - 1; a return to column 0; a new line one row down; text fills the cells from the cursor on and changes no other; other sequences do nothing. Nothing raises or waits. |
| `ScreenTheorems.PutIs` | bench/client.py:148-150 | Text of n characters fills the n cells from the cursor on with exactly these, moves n columns, and changes no other cell. |
| `ScreenTheorems.BadPositionRaises` | bench/client.py:141-142 | A cursor position raises exactly if one of its two parameters is no number, and then changes nothing. |
| `ScreenTheorems.NumberOfDigits` | bench/client.py:142 | A printed decimal reads back as its number. |
| `ScreenTheorems.NumberExactly` | bench/client.py:142 | Exactly digits, or nothing, are a number. |
| `ScreenTheorems.DecodeOfEncode` | bench/client.py:148 | Decoding reads back every list of code points encoded by section 3 of RFC 3629, and the bytes end in no unfinished character. |
| `Utf8.DecodeAppended` | bench/client.py:148 | Decoding with replacement splits wherever no character is unfinished. |
| `Utf8.MoreAddsNone` | bench/client.py:148 | A byte that continues an unfinished character adds no character, but alone is one. |
| `WebSockets.WebSocket.Need` | bench/client.py:286-291 | Bytes are read until enough are buffered; none is lost, and it fails exactly if the stream is shorter. |
| `WebSockets.WebSocket.Receive` | bench/client.py:293-305 | The first frame of the stream, wherever chunks end, and the stream without it; a stream that ends early is an error that loses nothing. |
| `WebSockets.ReceiveAll` | bench/client.py:293-305 | Repeated calls return the frames of the stream. |
| `WebSockets.FramesArrive` | bench/client.py:293-305 | Unmasked frames in any length form (section 5.2 of RFC 6455) are received in order, and a frame cut short after them is not. |
| `WebSockets.TakeOfEncode` | bench/client.py:293-305 | One frame is read back and what follows is untouched. |
| `WebSockets.TakeWaits` | bench/client.py:302 | No frame is returned before its last byte. |
| `WebSockets.WebSocket.Send` | bench/client.py:279-284 | A payload is sent exactly if it has at most 65535 bytes: the byte 0x81, the length with the mask bit in its shortest form, high byte first, the mask, and byte i of the payload xor byte i modulo 4 of the mask; otherwise nothing is sent. |
| `WebSockets.SendRoundTrips` | bench/client.py:279-284 | A server that reads by sections 5.2 and 5.3 of RFC 6455, with an unmasking of its own, and wants the final bit, no reserved bit, the mask bit and the shortest length, reads back one text frame with the payload. |
| `WebSockets.TextFrameIsRead` | bench/client.py:283-284 | Such a server reads any frame of that form, and leaves what follows untouched. |
| `WebSockets.UnpackIsBigEndian` | bench/client.py:297-300 | The first byte of a length is the most significant one. |
| `SessionViews.SessionView.Update` | app/App/SessionView.swift:92-118 | The listed windows keep their views, hot living others are kept, the rest is closed and leaves the order. |
| `SessionViews.SessionView.Show` | app/App/SessionView.swift:127-141 | All but the window are hidden, and a newly shown one becomes first in the order. |
| `SessionViews.SessionView.Evict` | app/App/SessionView.swift:144-155 | The loop with its running count is the specified eviction. |
| `SessionViews.SessionView.Count` | app/App/SessionView.swift:157 | The hot surfaces of a dictionary, in whatever order it is read. |
| `SessionTheorems.UpdateIsExact` | app/App/SessionView.swift:92-118 | A listed window has exactly the view it had, or a new one, unless that is hot, not hidden and its layout changed; one that is not listed joins `others`, as it was, exactly if it is hot and alive; the order keeps the windows that still have a view. |
| `SessionTheorems.ListRelays` | app/App/SessionView.swift:99-112 | A hot view that is not hidden is laid out again by the one entry of its window that changed. |
| `SessionTheorems.ShowIsExact` | app/App/SessionView.swift:127-141 | Every other view is hidden, every view keeps its surfaces but the newly shown one, and that comes first in the order, the others behind it as they were. |
| `SessionTheorems.LostExactly` | app/App/SessionView.swift:145-153 | A window loses its surfaces exactly if it is hot and not shown, those kept of the windows shown after it and its own exceed 32, and more than 32 are still hot when the loop comes to it. |
| `SessionTheorems.EvictIsExact` | app/App/SessionView.swift:144-155 | That is what an eviction takes, and the order keeps exactly the windows that are still hot, in their order. |
| `SessionTheorems.RunsKeepInv` | app/App/SessionView.swift:92-157 | In every run of updates, shows, evictions and closes, every hot window is in the order once, at most one view is unhidden, and a hot unhidden one is first. |
| `SessionTheorems.EvictLeavesBudget` | app/App/SessionView.swift:144-155 | After an eviction at most 32 surfaces are hot, or as many as the shown window has. |
| `SessionTheorems.EvictSparesShown` | app/App/SessionView.swift:149 | The shown window keeps its surfaces and its place. |
| `SessionTheorems.RecentSurvive` | app/App/SessionView.swift:145-153 | The most recent windows that fit the budget together keep their surfaces. |
| `SessionTheorems.EveryEvictionBounds` | app/App/SessionView.swift:127-157 | The bound, after any run. |
| `SessionTheorems.HotIsSum` | app/App/SessionView.swift:157 | Counting along the order counts every hot surface. |
| `WindowFrames.Place` | app/App/WindowFrame.swift:25-44 | The frame is the first of the cascade that is not open, or the one after the checked ones; it lies on the chosen screen, and is open exactly if all the checked frames are. |
| `WindowFrames.Choose` | app/App/WindowFrame.swift:27-31 | The screen shows most of the frame, the first of equals, or is the main one. |
| `WindowFrames.CascadeStaysInside` | app/App/WindowFrame.swift:36-42 | Any number of wrapping steps stays on the screen. |
| `WindowFrames.CollidesExactly` | app/App/WindowFrame.swift:36-42 | The result covers an open window exactly if the first frames, one more than windows are open, are all open; then so is every later one. |
| `WindowFrames.DistinctFramesAvoid` | app/App/WindowFrame.swift:36-42 | Distinct first frames leave a free one. |
| `WindowFrames.RoomAvoids` | app/App/WindowFrame.swift:36-42 | Room for as many steps to the right as windows are open is enough. |
| `WindowFrames.FullScreenCollides` | app/App/WindowFrame.swift:36-42 | A frame as large as the screen covers the window that is already there. |
| `WindowFrames.Clamped` | app/App/WindowFrame.swift:32-35 | The saved frame shrinks and moves onto the screen, and stays if it is on it. |
| `WindowFrames.ClampedIsNearest` | app/App/WindowFrame.swift:32-35 | No frame on the screen that is no larger than the saved one is larger or, if as large, nearer to it. |
| `WindowFrames.CascadeIs` | app/App/WindowFrame.swift:36-42 | Every frame of the cascade in closed form: 20 points right and down for each step as long as they fit, and from then on from the left side or the top again, with the period of the whole screen. |
| `Drains.Drain.Enter` | app/App/Drain.swift:10-17 | Entering counts, unless the drain is closed. |
| `Drains.Drain.Close` | app/App/Drain.swift:19-25 | Closing leaves the group once. |
| `Drains.Child.Launch` | app/App/Child.swift:40-65 | A refused or failed launch leaves both groups as they were; a launched child counts in both. |
| `Drains.Child.Terminated` | app/App/Child.swift:51 | The end of the process leaves both groups. |
| `Drains.Ssh.StopAfter` | app/App/SSH.swift:207-221 | The first stop takes the master and waits for the drain; later ones do nothing. |
| `Drains.Ssh.Finish` | app/App/SSH.swift:213-218 | The block stops the master it found, or leaves the group. |
| `DrainTheorems.CountsNeverUnderflow` | app/App/Drain.swift:8-25 | The drain's count is 1 while open, plus its children that have not ended; no group ever goes below zero, failed launches included. |
| `DrainTheorems.StopWaitsForHelpers` | app/App/SSH.swift:207-221 | The block of a stop after the drain runs only once the drain is closed and every child has ended, and none is admitted afterwards. |
| `DrainTheorems.StopSparesMasterExactly` | app/App/SSH.swift:130-159 | A stop after the drain never has its master stopped before the drain is closed and every helper has ended, in any continuation, exactly if the master serves and nothing has stopped it at the stop, or the drain is already empty. A master still being launched is stopped by its launch; one that a relaunch stopped is stopped already. |
| `DrainTheorems.StopTakesTheMaster` | app/App/SSH.swift:207-221 | From the first stop on, its plan is about the master that the connection had then. |
| `DrainTheorems.StopEndsTheMaster` | app/App/SSH.swift:213-221 | That master is stopped before its end is awaited, and has ended before the owner's group is left. |
| `DrainTheorems.EndedIsLeftOnce` | app/App/SSH.swift:213-221 | The owner's group is left exactly once, after the master and its stderr have ended. |
| `DrainTheorems.StopCompletes` | app/App/SSH.swift:207-221 | With the drain closed and every process ended, the stop has finished or its next step can run. |
| `DrainTheorems.StepKeepsInv` | app/App/Child.swift:40-65 | Every step of helpers, masters and the stop keeps the invariant. |

## Left out

- AppKit drawing, menus, theming, notifications, accessibility, and the foreign `ghostty_*` and `ko_*` calls behind the abstract surface.
- The sources of `KoClient`, `KoModel` and `PaneLayout`, which are not part of this model; layouts and placements are inputs.
- PaneView: `scroll(to:)`, which only the app's tests call: it clears the target without a new intent and moves the surface outside the `viewport` lock, so the theorems about the target do not cover runs with it.
- PaneView: the calls into the surface by which a search, a key or a selection moves the viewport are one step that moves it anywhere and records nothing; find's own state, momentum and the beep are not modelled.
- PaneView: main's own reads of the surface (`scrollPosition()` in a turn) are taken together with the step they belong to; jobs of different kinds may leave the serial queue in any order, which contains every first-in first-out run.
- PaneTheorems.FeedMovesTarget: takes the `viewportDelta` that a scroll call reports to be the change of distance it made.
- PaneViews.PaneView: the cells of one purpose are grouped into a record each, so an assignment to one of them appears as an update of its record.
- PaneImages: termination of repeated rescans depends on the surface accepting attachments and is not claimed; a shared-memory mapping that fails counts as offered.
- Link: floating-point rounding of times and tokens; sockets, signals and the statistics file.
- Shell.QuotingRoundTrips: characters are single code units, so a quote that Foundation would join with a combining mark into one grapheme is not distinguished.
- Upload: file systems that fold more than the ASCII letters, which is all that a cleaned name can hold; permission checks, `find`, `du` and the base64 transport of the script; promised files and clipboard images.
- Rects: floating-point rounding; infinite rectangles. Two rectangles that only touch are taken to overlap in an empty rectangle, which `subtracting` treats like none.
- CursorRects: the terminal's own cursor rectangles, the paddings and the overlays are inputs in the window's coordinates.
- Screens: Python's limit on the digits of an integer; `lowest_line`.
- WebSockets: the HTTP handshake, JSON and timeouts; control frames are returned like any other, as the code does.
- SessionViews: the views of AppKit; how many panes a layout creates is an input.
- WindowFrames: decoding of the saved frame; a frame that only touches a screen is taken not to intersect it.
- Drains: timers that kill a stopped child, cancellation, and the commands that the helpers run.
