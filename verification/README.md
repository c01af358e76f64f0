# Blockwise: verified models of the hard cores

Dafny models of nine cores of the repository, and proofs about them. Each model has the branches,
constants and error cases of the code it cites. `dafny verify dfyconfig.toml` checks everything.
Nothing was executed: not the original program, and not these models.

| files | what they model |
|---|---|
| `job_queue`, `queue_results`, `lease_heartbeat`, `guarded_fetch`, `worker_*` | the job worker: claim, heartbeat, race, drain and settlement against the job table, for any number of workers, the reaper, and a network that loses and delays requests |
| `text_wrap*`, `text_split`, `text_first_fit`, `text_layout*`, `text_scaling` | greedy line wrapping, the descending font-size scan, the three overflow policies |
| `template_*`, `renderer_*` | the template schema's refinements, and the renderer's fonts, preflight and refusals |
| `internal_auth`, `replay_protection` | the checks on a signed internal request, and the nonce table under concurrent verifications |
| `editor_*`, `fit_text` | the editor's promise chain of messages over two placement scenes and one canvas, with the timer, edits and template picks coming in between; the template text fitting pass |
| `instant_form`, `instant_form_runs` | the instant form editor's overlapping requests, the server's draft revisions, and the reported pin |
| `brand_colour` | the hexadecimal and HSV pair of the colour picker, in exact arithmetic |
| `leads_csv` | the leads export and an RFC 4180 reader |
| `prelude`, `placements` | shared values |

The worker is a state machine: a phase is one await of `runOnce` or of the claim loop, an event is
what ends it, and a handler may settle, or not, at any time. The database RPCs follow their SQL. All
worker results hold for every reachable state; only the deadline results add that timers fire on time
and that a claim is answered within the heartbeat timeout. Where the source mutates state in
place (closures, module state, component state, loops that push) the model does too, and each such
method is proved equal to a function that the lemmas are about.

## What does not hold

Each of these is a lemma with a concrete run or input, or the exact condition under which the
promise does hold.

- Several heartbeats can be outstanding on the network: the worker waits for one, but one that it
  gave up and tolerated can still be on its way when the retry is sent. A run does that exactly for
  configurations with interval plus timeout below the lease (`BeatsOverlapExactly`, by the run in
  `RetryOverlaps`), and whenever two heartbeats of a claim are on their way, that is what happened
  (`EarlierBeatWasTolerated`).
- Two workers can run one job at once after a lease expired, until the old one notices. There are
  runs to such states, with timers late (`OverlapHappens`) and on time (`OverlapHappensOnTime`); a
  held job can be given out again exactly when `SecondGrantExactly` says; the time is bounded
  (`OverlapIsBounded`) and at most one of the leases is live. The comment at worker/index.ts:722-725
  says without double-processing.
- The size scan steps by 0.5 from the authored size, so text that fits at the readability floor can be
  refused when the size is not a multiple of 0.5 above it (`FloorCanBeMissed`). `ScanIsComplete` gives
  the exact condition; on the grid the floor itself decides (`FloorDecidesOnGrid`).
- A size ratio can sink text below the floor in a layout that the contract accepts (`RatioCanSink`).
- Two font files with one base name share an alias, and the later one is drawn with the earlier
  one's font, also across templates in one process (`FilesShareAlias`; `OwnFontExactly` says when).
- The uniqueness check on replacement mappings refuses some templates whose mappings all differ
  (`DifferentMappingsRefused`; `UniquenessExactly` and `JoinedKeysAgreeExactly` say which).
- Replay protection holds if and only if delay plus clock spread is at most the nonce lifetime
  (`SlackIsExact`); beyond that, `ReplayBeyondSlack` is a run in which a nonce is accepted twice.
  Nonces live for twice the lifetime that the comment at src/lib/internal-auth.ts:38 names.
- A snapshot of a canvas that does not have the active placement's workspace is stored as that
  placement's scene. That is so before the first load, on the editor's own 900 by 1200 canvas
  (`TimerStoresForeignScene`), and after a template of another size was picked in the side bar, which
  is not normalised (`PickStoresForeignScene`); `ScenesBelongExactly` gives the exact condition. If
  the change timer fires while `initialize` waits for fonts, that canvas replaces the feed template,
  shown or hidden (`TimerReplacesTemplate`; `InitializeStores` says for both placements).
- An edit made while a scene is being loaded is gone when the load completes: the snapshot was taken
  before it (`EditIsLost`; `EditSurvivesExactly` says when an edit lasts).
- The guard of the leads export is not injective (`GuardConfuses` says for which values).
- A late or failed response after the ad changed makes the instant form editor report the old ad's
  draft as pinned (`LateAnswerMisleads`, `FailedLoadMisleads`; `PinIsOfPresentAdExactly` says when a
  report is right). What is typed while a save is under way can be lost (`TypingIsLost`;
  `SaveKeepsTypingExactly` says when, other answers included), and an unreadable answer to a save leaves a form that is stored
  but can neither be pinned nor saved (`StoredButStuck`; `StuckExactly` says when).

## Model

| member | source | states |
|---|---|---|
| LeaseHeartbeat.LeaseKeeper.constructor | worker/index.ts:357-361 | the closure state at the start of a job: deadline one lease ahead, first attempt one interval ahead |
| LeaseHeartbeat.LeaseKeeper.OnTick | worker/index.ts:384-387 | a heartbeat goes out only if none is awaited, nothing failed or stopped, and the attempt is due |
| LeaseHeartbeat.LeaseKeeper.OnResolved | worker/index.ts:388-391 | an answered heartbeat moves both deadlines and clears the one in flight |
| LeaseHeartbeat.LeaseKeeper.LoseLease | worker/index.ts:376-382 | loss is declared once and the first error stays |
| LeaseHeartbeat.LeaseKeeper.OnRejected | worker/index.ts:392-404 | a refusal, or a failure too close to the deadline, declares loss; any other failure schedules a retry |
| LeaseHeartbeat.LeaseKeeper.RequestStop | worker/index.ts:409-414 | stopping is remembered and nothing else changes |
| LeaseHeartbeat.AcceptedLeaseIsNotClamped | worker/index.ts:241-246 | the database's clamp of 30 to 3600 seconds never changes a lease the worker accepts |
| LeaseHeartbeat.DefaultTimeoutFitsLease | worker/index.ts:370-373 | three default timeouts fit in a lease, for every accepted interval and lease |
| LeaseHeartbeat.IntervalsExactly | worker/index.ts:370-405 | the timer's interval, the retry interval and the default timeout, each as the largest number within its bounds |
| LeaseHeartbeat.NextHeartbeat | worker/index.ts:384-411 | the next heartbeat goes out one interval after the start or the last success, one retry interval after a tolerated failure, and never while one is awaited, after the loss or after the stop |
| LeaseHeartbeat.LossExactly | worker/index.ts:376-398 | a failed heartbeat declares the lease lost exactly when it was refused or could not be repeated before a lease counted from the last success ends; the first reason stays |
| GuardedFetch.TargetExactly | worker/index.ts:470-476 | an address passes exactly when it is https, on graph.facebook.com, and its path is a version such as v21.0 and a number, up to extra slashes |
| GuardedFetch.PermittedExactly | worker/index.ts:463-497 | the compensation transport admits exactly a POST of status PAUSED and nothing else, or a bodiless GET of the three status fields, to such an address |
| GuardedFetch.AfterAbortOnlyPause | worker/index.ts:269-287 | after an abort a request goes out if and only if the job is of one of the two publish kinds and it is such a write or read on the compensation transport |
| GuardedFetch.GoesOutExactly | worker/index.ts:445-502 | which requests of a handler go out, before and after the abort, on which transport and for which kinds of job; with which signals, and whether redirects are refused |
| WorkerSafety.ServeKeepsInv | supabase/migrations/20260802122856_job_queue_workspace_leases.sql:499-638 | no RPC of one worker disturbs another worker's claim, the table constraints or the history |
| WorkerSafety.ReapKeepsInv | supabase/migrations/20260803160000_prelaunch_tenant_and_queue_hardening.sql:110-213 | a reaper pass takes only leases that ran out and keeps the invariant |
| WorkerSafety.StepSettlesCleanly | worker/index.ts:296-344 | a settlement is sent only after the handler stopped, the heartbeat stopped, nothing is in flight and the lease was never declared lost; a failed heartbeat is never forgotten |
| WorkerSafety.EventKeepsInv | worker/index.ts:227-346 | every event of the whole system keeps the invariant on rows, leases, claims, calls and history |
| WorkerSafety.ReachableInv | worker/index.ts:726-736 | the invariant holds in every reachable state |
| JobQueueResults.LeaseLasts | supabase/migrations/20260802122856_job_queue_workspace_leases.sql:512-515 | a lease lasts what was asked for, within thirty seconds and an hour |
| JobQueueResults.BackoffDoubles | supabase/migrations/20260802122856_job_queue_workspace_leases.sql:617-620 | the backoff is two seconds after the first attempt, doubles, and stays at ten minutes |
| JobQueueResults.NewJobWaits | supabase/migrations/20260802122856_job_queue_workspace_leases.sql:306-322 | a new job can be handed out from the moment it asks for |
| JobQueueResults.ClaimedJobIsLeased | supabase/migrations/20260803160000_prelaunch_tenant_and_queue_hardening.sql:46-66 | a claim costs an attempt, leases the job to the token and keeps it from anybody else |
| JobQueueResults.HeartbeatMovesExpiry | supabase/migrations/20260802122856_job_queue_workspace_leases.sql:509-520 | a heartbeat moves the end of the lease and nothing else |
| JobQueueResults.CompletedJobIsFinished | supabase/migrations/20260802122856_job_queue_workspace_leases.sql:537-552 | a completed job is finished, without an error, and never handed out again |
| JobQueueResults.FailedJobIsRetried | supabase/migrations/20260802122856_job_queue_workspace_leases.sql:581-638 | a failed job keeps its error; with an attempt left it can be handed out again exactly from the end of its backoff, and otherwise it is finished |
| JobQueueResults.ReaperTakesExactly | supabase/migrations/20260803160000_prelaunch_tenant_and_queue_hardening.sql:126-213 | a reaper pass changes exactly the unlocked jobs leased past their expiry or waiting without an attempt left, and fails them with their last error or with its own |
| JobQueueResults.CancelExactly | supabase/migrations/20260802122856_job_queue_workspace_leases.sql:340-367 | cancelling finishes a waiting job of the workspace and touches no other |
| WorkerAnswers.ClaimIsAnswered | supabase/migrations/20260803160000_prelaunch_tenant_and_queue_hardening.sql:32-89 | a claim is answered with a waiting job, leased under a fresh token from then on, or with nothing |
| WorkerAnswers.HeartbeatIsAnswered | supabase/migrations/20260802122856_job_queue_workspace_leases.sql:499-525 | a heartbeat is answered with true exactly when the claim's lease is live, which then runs its full length from now |
| WorkerAnswers.CompletionIsAnswered | supabase/migrations/20260802122856_job_queue_workspace_leases.sql:527-555 | a completion is answered with true exactly when the claim's lease is live; the job is then finished |
| WorkerAnswers.FailureIsAnswered | supabase/migrations/20260802122856_job_queue_workspace_leases.sql:557-638 | a failure is answered exactly when the claim's lease is live, with the status that the job then has |
| WorkerAnswers.AnswersArrive | worker/index.ts:418-440 | a served request changes the table as its transaction does, and its sender alone gets the answer |
| WorkerAnswers.RequestsStayOnTheirWay | worker/index.ts:418-440 | on every run nothing but an answer stops a request on its way, neither a timeout nor a crash nor the next job, and only a sender puts one there |
| WorkerAnswers.ReportsTellTheAnswer | worker/index.ts:523-554 | a worker reports every settlement that the database confirms, as it was answered, and no other |
| WorkerSettlement.SettlementsFollowTheRace | worker/index.ts:304-343 | on every run, a worker asks for completion exactly when its handler's success decided the race, and for failure only with the handler's own message or the timeout's; what decided is read off the run |
| WorkerSettlement.JobsEndAsDecided | worker/index.ts:296-344 | a worker ends a job by crashing, by stopping for good over a running handler, by dropping a lost one once its handler has stopped, or by asking for exactly the settlement the race decided |
| WorkerSettlement.JobsStart | worker/index.ts:247-263 | a worker asks for a job only when idle and not told to shut down, and starts exactly the job it is given, unless that is malformed; a failed call ends the job and not the worker |
| WorkerSettlement.HeartbeatFollows | worker/index.ts:384-414 | the worker's heartbeat state follows the interval's callbacks step by step |
| WorkerSettlement.NeverStuck | worker/index.ts:304-343 | in every reachable state a live worker has a step it can take without any answer |
| WorkerResults.SettledAtMostOnce | worker/index.ts:304-343 | no lease is ever settled twice, and none that was declared lost is settled |
| WorkerResults.HandlerStopsFirst | worker/index.ts:310-336 | a worker polls or settles only with its handler stopped; one that leaves a job with its handler running is not live any more |
| WorkerResults.StoppedForGood | worker/index.ts:726-736 | a worker that stopped with the restart error, exited or crashed never acts again |
| WorkerResults.EventTouches | supabase/migrations/20260802122856_job_queue_workspace_leases.sql:510-524 | a row that is not pending changes only by the reaper on a lease that ran out, or by a request that passes the fence |
| WorkerResults.OnlyHolderTouchesJob | worker/index.ts:418-440 | a leased row changes only by a request with its current, live token from the worker it was issued to, or by the reaper after expiry |
| WorkerResults.ReportedSuccessIsReal | worker/index.ts:523-535 | a reported completion happened, under the reporter's own lease, neither reaped nor lost, and is the job's only one |
| WorkerResults.ReapedLeaseIsDead | worker/index.ts:677-690 | once reaped, a token passes no fence, completes nothing and reports nothing |
| WorkerResults.FinishedJobStaysFinished | worker/index.ts:722-735 | no event changes a completed or failed job or issues another lease for it |
| WorkerResults.FinishedOverRun | worker/index.ts:722-735 | the same over every continuation of a run |
| WorkerResults.ClaimsAreAttempts | supabase/migrations/20260803160000_prelaunch_tenant_and_queue_hardening.sql:49-80 | the leases ever issued for a job are as many as its attempts, and at most its budget |
| WorkerResults.OneLiveHolder | worker/index.ts:722-725 | of two workers on one job at most one has a lease that is still live |
| WorkerOverlap.SecondGrantExactly | supabase/migrations/20260803160000_prelaunch_tenant_and_queue_hardening.sql:59-78 | a job that a worker still holds can be given out again exactly when the reaper took that lease, nobody holds another, the job is not finished, attempts are left and the backoff is over; the first lease has then run out |
| WorkerOverlap.OverlapHappens | worker/index.ts:722-735 | for every configuration, a run from the empty system to two workers running one job, neither told to stop |
| WorkerOverlap.OverlapHappensOnTime | worker/index.ts:722-735 | such a run with every timer on time and the default timeout |
| WorkerWire.AbortIsFinal | worker/index.ts:270-272 | no event ends the abort of a worker's present claim |
| WorkerWire.AfterAbortOnlyPausesGoOut | worker/index.ts:269-287 | on every run, once something went out for a claim after its abort, all that goes out for that claim later, even after its worker took up another, is a pause or its status read, from a publish job |
| WorkerAborts.WireGrowsExactly | worker/index.ts:459-469 | a request goes out exactly when the handler's transport lets it through as its claim's signal is at that moment, and nothing else goes out |
| WorkerAborts.AbortedClaimOnlyPauses | worker/index.ts:269-287 | on every run, from the moment a claim's signal aborts it stays aborted, and only pauses and their status reads go out for that claim |
| WorkerTiming.ToleratedOnlyWhileLive | worker/index.ts:392-400 | a failed heartbeat is tolerated only at an instant when the database holds the lease live |
| WorkerTiming.LossNoticedInTime | worker/index.ts:384-405 | a running worker is never further past expiry than timeout + tick + max(retry, interval + timeout - lease) |
| WorkerTiming.OverlapIsBounded | worker/index.ts:384-405 | two handlers run one job, neither told to stop, no longer than that time past expiry |
| WorkerTiming.DefaultNotice | worker/index.ts:370-374 | with an interval of a third of the lease and the default timeout that time is at most twelve seconds |
| WorkerTiming.OneBeatAwaited | worker/index.ts:385-387 | when a heartbeat is sent no other is awaited |
| WorkerBeats.EarlierBeatWasTolerated | worker/index.ts:392-400 | on every run, of any two heartbeats of one claim that are on their way the earlier one was given up and tolerated, and their serials differ |
| WorkerBeats.TwoBeatsExactly | worker/index.ts:384-400 | so two of a claim are on their way exactly when a tolerated one and a later one are |
| WorkerBeats.BeatsOverlapExactly | worker/index.ts:394-405 | some run has two exactly for the configurations with interval plus timeout below the lease |
| WorkerBeats.RetryOverlaps | worker/index.ts:424-433 | for each of these, a run from the empty system to such a state |
| TextWrap.PlaceWord | packages/ad-template-renderer/src/text-layout.ts:74-93 | one turn of the word loop, hard breaking included, is the model's step |
| TextWrap.PlaceParagraph | packages/ad-template-renderer/src/text-layout.ts:67-95 | a paragraph appends its own lines to those pushed so far |
| TextWrap.WrapText | packages/ad-template-renderer/src/text-layout.ts:58-97 | the loops compute the wrapping the lemmas are about |
| TextWrapResults.WrapKeepsInk | packages/ad-template-renderer/src/text-layout.ts:58-97 | for any measure, the lines hold exactly the non-space text, in order |
| TextWrapResults.ParagraphsStayApart | packages/ad-template-renderer/src/text-layout.ts:67-72 | every paragraph has its own non-empty block of lines, which is that paragraph wrapped and holds exactly its text |
| TextWrapResults.LinesWithinWidth | packages/ad-template-renderer/src/text-layout.ts:75-92 | every line is empty, within the width, or one grapheme of one word, and starts and ends with ink |
| TextWrapMinimal.GreedyIsMinimal | packages/ad-template-renderer/src/text-layout.ts:87-92 | greedy breaks are never more than those of any other break into fitting lines |
| TextWrapMinimal.WrapIsGreedy | packages/ad-template-renderer/src/text-layout.ts:73-94 | when every word fits alone, wrapping breaks where the greedy breaks are |
| TextWrapMinimal.WrapIsMinimal | packages/ad-template-renderer/src/text-layout.ts:67-95 | then no split of the words into fitting lines uses fewer lines |
| TextFirstFit.WrapIsFirstFit | packages/ad-template-renderer/src/text-layout.ts:67-95 | a paragraph wraps into exactly those lines in which every line takes the next word, or the next grapheme of a word too wide for a line, as long as that fits, and such a word starts a line |
| TextFirstFit.WrapUsesFewestLines | packages/ad-template-renderer/src/text-layout.ts:67-95 | for any words, no way to break a paragraph, long words at their graphemes and the others whole, has fewer lines, when width grows along a line |
| TextFirstFit.LongWordIsCut | packages/ad-template-renderer/src/text-layout.ts:75-86 | a word too wide for a line is cut into consecutive pieces of graphemes, each within the width or a single one, and none but the last could take the next grapheme |
| TextFirstFit.LongWordIsCutLeast | packages/ad-template-renderer/src/text-layout.ts:75-86 | when width grows with the graphemes, no such cut has fewer pieces |
| TextSplit.WordsAreRuns | packages/ad-template-renderer/src/text-layout.ts:68 | the words are all the maximal runs of ink, in order |
| TextSplit.ParagraphsRejoin | packages/ad-template-renderer/src/text-layout.ts:67 | the paragraphs hold no line feed, and joined by line feeds they are the text with its line breaks made plain |
| TextSplit.TrackingWidens | packages/ad-template-renderer/src/text-layout.ts:46-56 | a text is as wide as measured plus the tracking once for every gap between its graphemes |
| TextLayout.ScanSizes | packages/ad-template-renderer/src/text-layout.ts:110-123 | the loop stops at the scan's result, or finds that there is none |
| TextLayout.ShortenLine | packages/ad-template-renderer/src/text-layout.ts:130-133 | the last line is shortened as far as the specification says |
| TextLayout.CutToLines | packages/ad-template-renderer/src/text-layout.ts:127-135 | the cut lines are those of the specification |
| TextLayout.PrepareTextLayout | packages/ad-template-renderer/src/text-layout.ts:99-143 | the whole procedure computes the specified preparation |
| TextLayoutResults.ScanIsLargest | packages/ad-template-renderer/src/text-layout.ts:110-123 | the scan returns the largest grid size that fits and fails only if none does, for any measure |
| TextLayoutResults.FitPathKeepsBox | packages/ad-template-renderer/src/text-layout.ts:116-122 | a layout from the fit path keeps line count, width and height and loses no text |
| TextLayoutResults.RefusePaintsOnlyBase | packages/ad-template-renderer/src/text-layout.ts:124 | from size one up `refuse` paints at the authored size exactly when that fits, and otherwise not at all |
| TextLayoutResults.RefuseLeavesBaseExactly | packages/ad-template-renderer/src/text-layout.ts:109-113 | it paints at another size exactly when that size is below one and another scanned size fits; the renderer refuses such sizes first |
| TextLayoutResults.ScaleDownPaintsOnlyFit | packages/ad-template-renderer/src/text-layout.ts:125 | `scale_down` is unfit exactly when no scanned size fits, and paints only fitting text at or above the floor |
| TextLayoutResults.ShortenIsLongest | packages/ad-template-renderer/src/text-layout.ts:131-133 | what stays is the longest prefix that the ellipsis can follow within the width |
| TextLayoutResults.TruncateKeepsMost | packages/ad-template-renderer/src/text-layout.ts:126-136 | cut text has the first maxLines lines, or all; all but the last stand, and of the last stays the longest prefix that an ellipsis can follow within the width, trimmed at its end; the ink before the ellipsis is a prefix of the text's |
| TextLayoutResults.TruncateAlwaysPaints | packages/ad-template-renderer/src/text-layout.ts:126-143 | `truncate` always paints, never more than the allowed lines |
| TextLayoutResults.SizesExactly | packages/ad-template-renderer/src/text-layout.ts:104-110 | where the scan starts and ends, for each policy, as the sizes at or above |
| TextLayoutResults.FitsExactly | packages/ad-template-renderer/src/text-layout.ts:114-121 | a text fits a size exactly when its lines are few enough, each within the width, and the highest rise, the deepest fall and the gaps together within the height |
| TextLayoutResults.PreparedExactly | packages/ad-template-renderer/src/text-layout.ts:110-143 | for each policy, when a text is skipped, unfit or painted, at which size, with which lines, and with their own rise, fall and tracking |
| TextScaling.FitsDownward | packages/ad-template-renderer/src/text-layout.ts:113-123 | with monotone measures, fitting words, and lines as high and as deep as their words, fitting at one size implies fitting at every smaller size |
| TextScaling.ScanIsComplete | packages/ad-template-renderer/src/text-layout.ts:113-123 | then the scan succeeds exactly when its last size fits, and nothing half a pixel larger than its result fits |
| TextScaling.FloorDecidesOnGrid | packages/ad-template-renderer/src/text-layout.ts:105-125 | a whole number of half pixels above the floor, `scale_down` paints exactly when the text fits at the floor |
| TextScaling.FloorCanBeMissed | packages/ad-template-renderer/src/text-layout.ts:113 | a text that fits at the floor and is refused all the same |
| TemplateContract.RefineLayer | packages/ad-template-contract/src/schema.ts:69-95 | the issues one layer adds |
| TemplateContract.RefineLayers | packages/ad-template-contract/src/schema.ts:69-95 | the loop adds those of every layer in order |
| TemplateContract.RefineZones | packages/ad-template-contract/src/schema.ts:96-101 | the loop adds one issue for each safe zone that leaves the canvas |
| TemplateContract.RefineLayout | packages/ad-template-contract/src/schema.ts:49-102 | the whole callback, background check first |
| TemplateContract.AcceptedExactly | packages/ad-template-contract/src/schema.ts:45-102 | a well-formed layout is accepted exactly when it has its background, every layer is sound and every zone lies on the canvas |
| TemplateContract.RefineReferences | packages/ad-template-contract/src/schema.ts:174-183 | one layer raises exactly the issues that hold of its input, asset, font and placeholder |
| TemplateContract.RefineReplacements | packages/ad-template-contract/src/schema.ts:188-195 | the loop with its set raises exactly the issues of undeclared mappings and of joined keys that are there twice |
| TemplateContract.RefineTemplate | packages/ad-template-contract/src/schema.ts:160-195 | an issue is raised exactly when it holds of a list, a default, a layer or a mapping |
| TemplateContract.Report | packages/ad-template-contract/src/schema.ts:161 | an issue joins those reported exactly when its test failed |
| TemplateContract.RefineDefaults | packages/ad-template-contract/src/schema.ts:168-170 | the loop raises its issue exactly when some default asset is not declared |
| TemplateContract.NoIssueExactly | packages/ad-template-contract/src/schema.ts:160-195 | no issue is raised exactly when everything referred to is declared and nothing is declared twice |
| TemplateContract.SizeMeansDistinct | packages/ad-template-contract/src/schema.ts:163-173 | comparing a list with its set by size tests for duplicates |
| TemplateContract.ReplacementsAreUnique | packages/ad-template-contract/src/schema.ts:188-195 | an accepted template maps no input to one asset twice |
| TemplateContract.JoinedKeysAgreeExactly | packages/ad-template-contract/src/schema.ts:192 | two mappings have one joined key exactly when equal, or one input key goes on with a colon and the start of the other's asset key |
| TemplateContract.UniquenessExactly | packages/ad-template-contract/src/schema.ts:188-195 | the uniqueness check passes exactly when no mapping is there twice and no two collide in that way |
| TemplateContract.DifferentMappingsRefused | packages/ad-template-contract/src/schema.ts:188-195 | two mappings, each accepted in an otherwise equal template, that are refused together though they differ |
| TemplateContract.HardLinesCoverParagraphs | packages/ad-template-contract/src/schema.ts:179-181 | the contract counts at least the lines wrapping breaks at, and as many exactly when there is no lone carriage return |
| TemplateContractResults.ResolvedExactly | packages/ad-template-contract/src/schema.ts:18-34 | a rectangle whose four numbers are within 1.001 of zero is a fraction of 1080 by 1350 or 1920, and any other is in pixels |
| TemplateContractResults.LayerIssuesExactly | packages/ad-template-contract/src/schema.ts:69-95 | which issues a layer raises, each in pixels and plain numbers |
| TemplateContractResults.LayoutIssuesExactly | packages/ad-template-contract/src/schema.ts:45-102 | which issues a layout raises: for its background, for its layers and for its safe zones |
| TemplateContractResults.CoherentExactly | packages/ad-template-contract/src/schema.ts:160-195 | when a template's references pass, told over its inputs, fonts, layers, assets and mappings |
| TemplateRenderer.Renderer.RegisterOne | packages/ad-template-renderer/src/renderer.ts:202-219 | one font is skipped, refused or registered under its alias |
| TemplateRenderer.Renderer.RegisterTemplateFonts | packages/ad-template-renderer/src/renderer.ts:201-220 | the loop registers the declared fonts in order and stops at the first error |
| TemplateRenderer.CheckLayer | packages/ad-template-renderer/src/renderer.ts:359-366 | what one layer pushes, or that it throws |
| TemplateRenderer.CheckLayers | packages/ad-template-renderer/src/renderer.ts:358-366 | the inner loop, after earlier violations |
| TemplateRenderer.AssertTextPreflight | packages/ad-template-renderer/src/renderer.ts:354-369 | the violations of all layers of all placements, in order |
| TemplateRenderer.Renderer.Render | packages/ad-template-renderer/src/renderer.ts:88-119 | the order of refusals: fonts, backgrounds, preflight, painting |
| RendererResults.AliasIs | packages/ad-template-renderer/src/renderer.ts:197-199 | the alias of a file is its name without folder, extension and slashes at the end, for every path with a name |
| RendererResults.AliasStandsFor | packages/ad-template-renderer/src/renderer.ts:201-220 | an alias stands for the font that had it before, or else for the first declared font with it |
| RendererResults.RegistrationResolves | packages/ad-template-renderer/src/renderer.ts:419-425 | every declared font resolves once registration has gone through |
| RendererResults.OwnFontExactly | packages/ad-template-renderer/src/renderer.ts:205-208 | a font is drawn with its own bytes exactly when no earlier font took its alias, or the one that did has the same bytes |
| RendererResults.FilesShareAlias | packages/ad-template-renderer/src/renderer.ts:197-199 | two different declared files with one alias |
| RendererResults.VerdictExactly | packages/ad-template-renderer/src/renderer.ts:371-417 | on a sound layer the preflight finds a sunk size ratio, or text that fits no scanned size, and nothing else |
| RendererResults.PaintAgrees | packages/ad-template-renderer/src/renderer.ts:319-322 | painting a sound layer is refused exactly when the preflight refuses it; ring, rule and asset refusals do not occur |
| RendererResults.AcceptedBackgrounds | packages/ad-template-renderer/src/renderer.ts:135-153 | an accepted background passes the renderer's own check |
| RendererResults.AcceptedRenders | packages/ad-template-renderer/src/renderer.ts:88-119 | an accepted template with its fonts and assets renders, or is refused with exactly the violations its text earns |
| RendererResults.ReportIsComplete | packages/ad-template-renderer/src/renderer.ts:64-81 | the cap of 512 drops no violation of an accepted template |
| RendererResults.NoRatioNeverSinks | packages/ad-template-renderer/src/renderer.ts:314-317 | without a size ratio an accepted text is never below the floor |
| RendererResults.RatioCanSink | packages/ad-template-renderer/src/renderer.ts:386-393 | an accepted layout whose text is below the floor by its ratio |
| RendererResults.FittedTextStaysOnCanvas | packages/ad-template-renderer/src/renderer.ts:333-344 | every line of the fit path of an accepted layer lies on the canvas, for all three alignments |
| RendererResults.TooManyHardLinesNeverFit | packages/ad-template-contract/src/schema.ts:180-181 | text with more hard lines than allowed fits at no size |
| RendererResults.LayerIdsAreSafe | packages/ad-template-renderer/src/renderer.ts:485-487 | a reported identifier is short, safe and not empty, and normalising it again changes nothing |
| RendererRefusals.SourceExactly | packages/ad-template-renderer/src/renderer.ts:209-216 | a font's bytes are those given under its file, or under the file with a prefix, or else those in the folder |
| RendererRefusals.RegistrationFailsExactly | packages/ad-template-renderer/src/renderer.ts:201-220 | registration fails with the error of the first font whose alias was registered and is gone, or that is the first with its alias and has no bytes or bytes that do not load, and with no other |
| RendererRefusals.LaidOutAsAuthored | packages/ad-template-renderer/src/renderer.ts:381-411 | a layer's text is laid out with its first characters in its case, in its box in pixels, at the size it asks for and with its own face, tracking, lines and line height |
| RendererRefusals.TextRefusedExactly | packages/ad-template-renderer/src/renderer.ts:378-384 | what keeps a text from being laid out: no text, an unknown policy, too long under `refuse`, a font that is not registered, in that order |
| RendererRefusals.TextPreparedExactly | packages/ad-template-renderer/src/renderer.ts:386-417 | what becomes of any other text: below the floor, fitting no scanned size, or painted as prepared |
| RendererRefusals.PreflightExactly | packages/ad-template-renderer/src/renderer.ts:359-366 | the preflight of a layer finds a line height exactly when the contract would, and then what preparing its text finds |
| RendererRefusals.LayersInOrder | packages/ad-template-renderer/src/renderer.ts:358-366 | the preflight of a layout stops at the first text that throws, and otherwise keeps all findings in order |
| RendererRefusals.PlacementsInOrder | packages/ad-template-renderer/src/renderer.ts:354-369 | so does that of the placements |
| RendererRefusals.PaintRefusedExactly | packages/ad-template-renderer/src/renderer.ts:121-131 | painting a layer is refused for exactly the shapes the contract refuses, for an asset not supplied, and for what its text earns |
| RendererRefusals.BackgroundRefusedExactly | packages/ad-template-renderer/src/renderer.ts:135-153 | the background check refuses the first placement whose first layer is no protected plate over the whole canvas |
| RendererRefusals.RefusalsInOrder | packages/ad-template-renderer/src/renderer.ts:88-119 | a background is refused before the preflight, which carries its first 512 findings, and that before painting |
| RendererRefusals.LayersRefusedInOrder | packages/ad-template-renderer/src/renderer.ts:104-106 | painting a layout is refused for the first layer that cannot be painted |
| RendererRefusals.PlacementsRefusedInOrder | packages/ad-template-renderer/src/renderer.ts:113-119 | painting the placements is refused for the first that cannot be painted |
| RendererRefusals.LayerIdExactly | packages/ad-template-renderer/src/renderer.ts:485-487 | an identifier is reported by its first 160 characters, every unsafe one as an underscore |
| InternalAuth.PayloadDecodes | src/lib/internal-auth.ts:102-111 | splitting the payload at line breaks gives back its fields |
| InternalAuth.PayloadIsUnambiguous | src/lib/internal-auth.ts:217-226 | payloads of one-line fields are equal exactly when the fields are, up to the case of the method |
| InternalAuth.LineBreaksWouldBeAmbiguous | src/lib/internal-auth.ts:110 | with line breaks in fields two different requests would sign alike |
| InternalAuth.PrecheckMeans | src/lib/internal-auth.ts:158-230 | a request reaches the nonce table exactly when secret, headers, skew, scope and signature are right |
| InternalAuth.PrecheckExactly | src/lib/internal-auth.ts:158-230 | a refused request gets the status and the error of the first of seven checks that fails |
| InternalAuth.NonceStore.DeleteExpired | src/lib/internal-auth.ts:126-129 | exactly the rows expiring before the cutoff go |
| InternalAuth.NonceStore.InsertIfFresh | src/lib/internal-auth.ts:130-141 | the insert succeeds exactly on a new nonce and otherwise changes nothing |
| InternalAuth.VerifyInternalRequest | src/lib/internal-auth.ts:145-258 | result and table for every outcome, database errors included |
| ReplayProtection.UndisturbedVerification | src/lib/internal-auth.ts:203-247 | the concurrent steps, when undisturbed, do what the method does |
| ReplayProtection.AcceptedAtMostOnce | src/lib/internal-auth.ts:232-247 | within the slack no run accepts a timestamp and nonce twice |
| ReplayProtection.ReplayBeyondSlack | src/lib/internal-auth.ts:237-240 | beyond it, a run that does |
| ReplayProtection.SlackIsExact | src/lib/internal-auth.ts:35-39 | replay never happens if and only if delay plus clock spread is at most the nonce lifetime of ten minutes |
| EditorBridge.NormalizeBelongs | apps/vue-ad-editor/src/bridge.ts:87-104 | normalising gives a scene of its placement, exactly when there is a workspace, and leaves such a scene alone |
| EditorBridge.Bridge.constructor | apps/vue-ad-editor/src/bridge.ts:50-58 | the closure state at the start |
| EditorBridge.Bridge.TakeCurrent | apps/vue-ad-editor/src/bridge.ts:130-135 | a snapshot stores the canvas under the active placement and changes nothing else |
| EditorBridge.Bridge.OnTimer | apps/vue-ad-editor/src/bridge.ts:140-147 | a change is sent once, and not while a scene is being loaded |
| EditorBridge.Bridge.StartLoading | apps/vue-ad-editor/src/bridge.ts:106-109 | changes are suppressed from here on, unless normalising throws |
| EditorBridge.Bridge.FinishLoading | apps/vue-ad-editor/src/bridge.ts:110-127 | placement, stored scene and last notification change together, and suppression ends either way |
| EditorQueue.MessagesTakeTurns | apps/vue-ad-editor/src/bridge.ts:429-431 | in the promise chain a handler begins only after those of all earlier messages ended, and the next one always can, however they ended |
| EditorQueue.QueueIsSequential | apps/vue-ad-editor/src/bridge.ts:369-431 | on every run, timer callbacks and user edits included, the editor is where handling the messages one by one leaves it |
| EditorRuns.FitKeepsPlacement | apps/vue-ad-editor/src/bridge.ts:168-225 | the fitting pass changes no scene's placement |
| EditorRuns.ScenesBelongExactly | apps/vue-ad-editor/src/bridge.ts:106-148 | on every run, from any first canvas and with any change of the canvas from outside, a stored scene belongs to its placement exactly when it is no snapshot of a canvas without that placement's workspace, or was loaded, replaced or taken again since |
| EditorRuns.TimerStoresForeignScene | apps/vue-ad-editor/src/bridge.ts:140-146 | on the canvas the editor really starts with, one timer callback stores a feed scene that is not the feed's |
| EditorRuns.PickStoresForeignScene | apps/vue-ad-editor/src/components/hostTemplates.vue:33-36 | on a canvas that was the feed's, a template of another size picked in the side bar and one timer callback store a feed scene that is not the feed's |
| EditorRuns.ColourKeepsFrame | apps/vue-ad-editor/src/components/bgBar.vue:76-78 | another colour of the workspace does not change whether the canvas has the placement's workspace |
| EditorRuns.DocumentSurvivesSwitching | apps/vue-ad-editor/src/bridge.ts:378-393 | without edits no run of switches, saves, snapshots, exports and timers changes either placement's scene |
| EditorEdits.EditSurvivesExactly | apps/vue-ad-editor/src/bridge.ts:378-393 | an edit at any moment of a run stays over all later switching, saving and exporting exactly unless a load was under way at the edit and completes; the other placement's scene stays in either case |
| EditorEdits.EditIsLost | apps/vue-ad-editor/src/bridge.ts:384-385 | a run from the creation of the bridge in which an edit made during a load is in neither the canvas nor the stored scenes after it |
| EditorRuns.InitializeStores | apps/vue-ad-editor/src/bridge.ts:227-250 | what initialize stores for both placements, and shows, is the fitted template, except that the timer puts the old canvas in place of the one that was active |
| EditorRuns.TimerReplacesTemplate | apps/vue-ad-editor/src/bridge.ts:140-142 | an initialize during which one timer callback puts the blank canvas in place of the feed template, shown or hidden |
| EditorAnswers.AnswersAreTrue | apps/vue-ad-editor/src/bridge.ts:260-285 | on every run, each answer and each reported change was true when its handler began, or its timer fired: a snapshot, an export, a save or a change holds the own scene of each placement it names |
| EditorAnswers.AnswersBelongExactly | apps/vue-ad-editor/src/bridge.ts:130-147 | a scene that goes out belongs to its placement exactly when the canvas had the workspace then, or the stored scene was no snapshot of a canvas without it |
| EditorAnswers.OneAnswerEach | apps/vue-ad-editor/src/bridge.ts:365-427 | on every run as many answers went out as messages that expect one have been handled |
| EditorMessages.NormalizeExactly | apps/vue-ad-editor/src/bridge.ts:87-104 | normalising gives the scene with its size, version and workspace set and every other object as it was, and throws exactly when there is no workspace |
| EditorMessages.FitExactly | apps/vue-ad-editor/src/bridge.ts:168-225 | the fitting pass changes each object of the scene, in its place, exactly as it fits, with a floor of 24 or 32 |
| EditorMessages.RefusedExactly | apps/vue-ad-editor/src/bridge.ts:369-427 | when a message is answered with an error before anything is awaited |
| EditorMessages.SwitchStarts | apps/vue-ad-editor/src/bridge.ts:378-383 | a switch stores the canvas and loads the placement's own scene, normalised |
| EditorMessages.ReplaceStarts | apps/vue-ad-editor/src/bridge.ts:387-393 | a replaced scene is stored normalised, and loaded when its placement is shown |
| EditorMessages.LoadEndsExactly | apps/vue-ad-editor/src/bridge.ts:110-127 | a completed load shows, stores and answers; a failed one changes nothing |
| EditorMessages.SaveAnswers | apps/vue-ad-editor/src/bridge.ts:394-399 | a save stores the canvas and reports just that |
| EditorMessages.ImagesAreAwaited | apps/vue-ad-editor/src/bridge.ts:266-285 | a snapshot or export stores the canvas and answers, once the images are there, with the scenes stored then |
| EditorMessages.EditAndForeign | apps/vue-ad-editor/src/bridge.ts:365-368 | an edit goes on the canvas without an answer, and a foreign message is ignored |
| EditorMessages.TimerExactly | apps/vue-ad-editor/src/bridge.ts:137-147 | the change timer stores the canvas and reports it unless it was the last thing reported; while a scene is loaded it does nothing |
| EditorMessages.InitializeStarts | apps/vue-ad-editor/src/bridge.ts:227-243 | initialize stores both supplied scenes, normalised, and waits for the fonts |
| EditorMessages.FontsEndExactly | apps/vue-ad-editor/src/bridge.ts:243-250 | then it stores both fitted and loads the requested one, and when it stops with an error instead |
| FitText.ShortenedExactly | apps/vue-ad-editor/src/bridge.ts:200-201 | one shortening drops the last word with the white space before it, if there is such a word, and otherwise one unit |
| FitText.ScanSizes | apps/vue-ad-editor/src/bridge.ts:182-194 | the loop finds the first fitting size of the row, or none |
| FitText.CutText | apps/vue-ad-editor/src/bridge.ts:197-214 | the loop finds the first fitting cut, or none |
| FitText.FitBox | apps/vue-ad-editor/src/bridge.ts:178-220 | one marked box is fitted as specified, or the pass throws |
| FitText.VisitObject | apps/vue-ad-editor/src/bridge.ts:169-223 | a visit is the specified visit of the object and its children |
| FitText.VisitObjects | apps/vue-ad-editor/src/bridge.ts:222-224 | the loop visits in order and stops when one throws |
| FitText.FittedBox | apps/vue-ad-editor/src/bridge.ts:178-220 | a box ends unmarked and sitting in its box, its tracking in pixels as it was: whole at the first size of base, base-1, ..., floor that does, or cut at the floor when none does |
| FitText.FirstCutIsFirst | apps/vue-ad-editor/src/bridge.ts:197-214 | the cut is the first of the successive shortenings that fits with its ellipsis, and none is found exactly when none fits |
| FitText.FittedTracking | apps/vue-ad-editor/src/bridge.ts:180-184 | tracking in pixels is what it was |
| FitText.FitThrows | apps/vue-ad-editor/src/bridge.ts:215 | the pass throws on a box exactly when no size and no permitted cut fits |
| FitText.FitsAtExactly | apps/vue-ad-editor/src/bridge.ts:184-190 | a text fits a size when it is at most a tenth too wide, has few enough lines, and is at most a fifth of the size too high |
| FitText.CutFitsExactly | apps/vue-ad-editor/src/bridge.ts:203-210 | a cut fits when with its ellipsis it sits so at the floor |
| FitText.SceneFitsExactly | apps/vue-ad-editor/src/bridge.ts:169-225 | the pass yields exactly the scene in which every box, at any depth and in its place, is fitted, unmarked or left alone |
| FitText.SecondPassIsIdle | apps/vue-ad-editor/src/bridge.ts:166-225 | after a pass no marker is left, and a second pass changes nothing |
| BrandColour.RemainderMeans | src/components/adbuilder/brand-studio.tsx:46 | the remainder is smaller than the divisor and has the sign of the dividend |
| BrandColour.RgbSurvives | src/components/adbuilder/brand-studio.tsx:36-62 | red, green and blue from 0 to 1 come back unchanged through hue, saturation and value |
| BrandColour.HsvSurvivesExactly | src/components/adbuilder/brand-studio.tsx:36-62 | a picker position comes back exactly when its colour is neither grey nor black, or it is the position such a colour reads as |
| BrandColour.HexSurvives | src/components/adbuilder/brand-studio.tsx:36-62 | every six-digit colour comes back in upper case, anything else as the fallback grey |
| BrandColour.PickerGivesColours | src/components/adbuilder/brand-studio.tsx:55-62 | every picker position prints as a colour, and reading that back settles on it |
| BrandColour.PrintingIsClose | src/components/adbuilder/brand-studio.tsx:60 | printing moves a channel by at most half a step |
| LeadsCsv.CellReadsBack | src/components/leads/leads-table.tsx:281-284 | a cell reads back as the guarded value, whatever quotes, commas or breaks it holds |
| LeadsCsv.GridReadsBack | src/components/leads/leads-table.tsx:296-311 | so does every grid |
| LeadsCsv.ExportReadsBack | src/components/leads/leads-table.tsx:277-311 | the exported file reads back as the header, column by column, and one record a lead in order, every value guarded in its own column |
| LeadsCsv.OpensExactly | src/components/leads/leads-table.tsx:282 | a value opens a formula exactly when it starts with one of six characters |
| LeadsCsv.GuardIsSafe | src/components/leads/leads-table.tsx:282 | no guarded value opens a formula; guarding is idempotent and changes formula openers only |
| LeadsCsv.GuardConfuses | src/components/leads/leads-table.tsx:282 | two values read back alike exactly when equal, or one is the other behind an apostrophe and that other opens a formula |
| LeadsCsv.ApostropheIsAmbiguous | src/components/leads/leads-table.tsx:282 | two values with one cell |
| LeadsCsv.ExportsAgreeExactly | src/components/leads/leads-table.tsx:277-311 | two grids export alike exactly when they are equal after guarding |
| InstantForm.InstantFormEditor.constructor | src/components/adbuilder/instant-form-editor.tsx:62-66 | the state when mounted |
| InstantForm.InstantFormEditor.SwitchAd | src/components/adbuilder/instant-form-editor.tsx:101-125 | a new ad starts a load and keeps everything else |
| InstantForm.InstantFormEditor.OnLoaded | src/components/adbuilder/instant-form-editor.tsx:105-120 | what a load response overwrites |
| InstantForm.InstantFormEditor.OnGenerated | src/components/adbuilder/instant-form-editor.tsx:131-141 | what a generated draft overwrites |
| InstantForm.InstantFormEditor.OnSaved | src/components/adbuilder/instant-form-editor.tsx:149-168 | what a save response overwrites |
| InstantForm.InstantFormEditor.Update | src/components/adbuilder/instant-form-editor.tsx:171-175 | an edit replaces the form and makes it dirty |
| InstantFormRuns.BusyExactly | src/components/adbuilder/instant-form-editor.tsx:428-440 | nothing can be typed or clicked during a load, and neither button twice before an answer, the other button or another ad ends the wait |
| InstantFormRuns.ReportExactly | src/components/adbuilder/instant-form-editor.tsx:71-75 | outside a load the shown form is reported, with a revision exactly when it is pinned and unchanged |
| InstantFormRuns.InsertStaysNumbered | src/app/api/adbuilder/ads/[id]/instant-form/route.ts:274-305 | a draft inserted after a stale read still follows the last one |
| InstantFormRuns.GeneratedIsShown | src/app/api/adbuilder/ads/[id]/instant-form/route.ts:57-88 | a generated form is answered and, taken over, shown unpinned and to be saved |
| InstantFormRuns.InsertExactly | src/app/api/adbuilder/ads/[id]/instant-form/route.ts:280-305 | a save stores its form under the revision after the one it read if that is free, and is answered with it; otherwise nothing is stored and it starts again, three times at most |
| InstantFormRuns.LoadIsAnswered | src/app/api/adbuilder/ads/[id]/instant-form/route.ts:32-55 | a load is answered with the newest draft of its ad, or with nothing |
| InstantFormRuns.PinnedIsStored | src/components/adbuilder/instant-form-editor.tsx:68-75 | on every interleaving a reported pin names a stored draft and the reported form is that draft; stored drafts never change and are numbered without gaps |
| InstantFormRuns.PinIsOfThisAd | src/components/adbuilder/instant-form-editor.tsx:68-75 | while the ad stays the same the draft is that ad's |
| InstantFormRuns.PinIsOfPresentAdExactly | src/components/adbuilder/instant-form-editor.tsx:68-75 | on every run a reported pin is a stored draft of the ad the editor is on exactly when the last thing that set the form was an answer to a request for that ad, or that ad happens to have the same draft under the same revision |
| InstantFormRuns.LateAnswerMisleads | src/components/adbuilder/instant-form-editor.tsx:113-115 | a run in which a late answer is reported as a pin of an ad without drafts |
| InstantFormRuns.FailedLoadMisleads | src/components/adbuilder/instant-form-editor.tsx:116-120 | another in which a failed load does that |
| InstantFormRuns.SaveTakesOver | src/components/adbuilder/instant-form-editor.tsx:160-163 | on every interleaving, a save answered with a pin shows and reports what the server made of the form sent, which is stored under that revision |
| InstantFormRuns.SaveKeepsTypingExactly | src/components/adbuilder/instant-form-editor.tsx:144-169 | from the click on save to its answer, on every run, whatever else is typed, asked and answered meanwhile: what is on the screen survives exactly when it is what the server made of the form sent at the click; if no other answer came and it stores what it is sent, exactly when nothing different was typed since |
| InstantFormRuns.TypingIsLost | src/components/adbuilder/instant-form-editor.tsx:161-163 | a run in which it does not survive, while a pin is reported |
| InstantFormRuns.StuckExactly | src/components/adbuilder/instant-form-editor.tsx:154-163 | on every run, a form is clean but unpinned, and so cannot be saved, exactly when the last thing that set it was an unreadable answer to a save |
| InstantFormRuns.StoredButStuck | src/components/adbuilder/instant-form-editor.tsx:439 | a run to such a state with the draft stored |

## Left out

Assumptions and parts of the original that the models do not have.

- Worker: one clock rate for workers and database, in whole milliseconds; `runOnce` and the claim loop are a state machine over values, not methods, because their steps interleave with other workers.
- Worker: the order in which `claim_job_v2` picks rows, which the model leaves open (any claimable row), deduplication on enqueue, and job payloads.
- Worker: what the SQL does to business rows when a job fails (publish plans, credit refunds), and rows without a lease token that the old RPCs left.
- Worker: which errors the claim call can meet, beyond failing, answering with no row, or answering with a row without a kind; pauses between polls; logging and preflight.
- Worker: the number of milliseconds in the timeout's message.
- Worker: URL and JSON parsing behind the compensation transport, and the identity of the signals' reasons.
- WorkerTiming.LossNoticedInTime: on runs where timers fire on time and claims are answered within the heartbeat timeout, which is assumed not negative.
- WorkerTiming.OverlapIsBounded: under the same assumptions.
- Text layout: graphemes and measures are abstract, and floating-point rounding is left out throughout.
- TextFirstFit.WrapUsesFewestLines: for widths that grow along a line; wrapping itself is exact for any widths.
- TextScaling.FitsDownward: for text whose words all fit a line, since hard breaking is not monotone, and for typefaces in which a line's ascent and descent are the largest of its words'.
- TextScaling.ScanIsComplete: under the same two assumptions; so is TextScaling.FloorDecidesOnGrid.
- TemplateContract.RefineTemplate: does not model gallery samples, references to real assets and the generation review.
- Template schema: fields that nothing here refers to (colours, effects, crops, review scores, gallery samples, metadata texts).
- Renderer: painting, pixels, the opacity check, image decoding, rotation, and the truncated path in the statement about the canvas; a registered font is assumed to be the one its alias then draws.
- Internal requests: HMAC and SHA-256 are functions without properties; the legacy bearer path and the audit record are not modelled; methods are upper-cased in ASCII.
- Editor: what the canvas does to a scene between loading and serialising is assumed to be nothing on a normalised scene, except making same-origin addresses relative.
- Editor: template text with a font size of zero or less counts as not fitting.
- Editor: host actions, asset results and their clip paths, PNG export, the timer's own delay, and loads that never call back.
- Editor: a template picked in the side bar reaches the canvas in one step, so none is still being put there while the bridge loads a scene.
- EditorEdits.EditSurvivesExactly: for an edit that leaves the canvas its workspace, with no other edit after it, from a state in which both stored scenes are their placements' and a load under way, if any, is a switch to a placement's own scene.
- EditorRuns.DocumentSurvivesSwitching: for runs without user edits, editing messages and scene replacement.
- FitText.SecondPassIsIdle: after a pass that succeeded; a pass that throws leaves earlier boxes fitted in the original and is only an absence in the model. Boxes have no children.
- Instant form: no writer updates a draft row, though the row policy would allow it; React applies the setters of one response together; validation is any predicate; the error text and the workspace in the address are left out.
- Leads export: the reader takes a line feed as the line break and does not restrict characters; character encoding and the download are left out.
- Colour picker: the pointer and slider code around the two functions.
- Not modelled at all: rate limits, client addresses, pages, mail, analytics, deployment.
