# A model of OpenVibe.Codes' stateful kernels

OpenVibe.Codes is a coding-agent harness: an agent engine, a runner that hands a task from one agent to the next, a
sandbox with its worker and its egress proxy, and a web service. Most of it moves data around. This project models the
parts that keep state and can go wrong over time, and proves what they promise over every input, every run or every
interleaving.

Each module models one kernel. Code that changes state in place is a class (or a method with loops) whose methods are
proved equal to a function of the old state; what the code promises is then proved about that function, over whole runs.

| module | models |
|---|---|
| `Seccomp` | the syscall filter compiler, with an interpreter of classic BPF as its specification |
| `TranscriptEvents`, `TranscriptText`, `TranscriptTidy`, `TranscriptScan`, `TranscriptLog`, `Transcript` | the incremental transcript parser, what a reader of it reads, and its cache |
| `Egress` | token buckets, the byte budget with its latch, and connection slots, under interleaved handlers |
| `Chain`, `Annotate`, `AnnotateEnds`, `AnnotateNotes`, `ChainStep` | the attempts of a task: links that may form cycles, the passes of `annotate` and what they say in the end, the next step, and driving a chain |
| `HarnessRun`, `ProcessQueue` | the hand-off loop, and the queue and stall race between an agent's process and the run |
| `Framing`, `Session`, `Cdp`, `Supervisor` | the sandbox's pipe: lines, requests and the wipe, the browser client, a command's output |
| `EventsConsumer` | at-least-once deliveries made effectively-once |
| `CodexFeed`, `Effort`, `SessionLog`, `Money`, `Models` | call and result pairing, level rounding, the bounded session log, exact money and the catalog's order, the picker |
| `Prelude`, `Lines`, `Numerals` | shared: options, newline-terminated lines, decimal numerals |

## Where the code does not do what its words say

* `sandbox/seccomp.js`: the header comment says x32 calls kill the process; the code answers EPERM for every number from
  0x40000000 on. The model follows the code.
* `sandbox/egress-proxy.js`: the comment on the limits says a budget that is not positive means "no limit"; the code
  falls back to the default budget, and a direction is without a limit exactly when its budget is Infinity
  (`Egress.ConfigureIff`).
* `engine/transcript.js`: a streamed piece that starts a new event does not carry its index: the index is put on the
  object the caller passed, not on the copy that is kept. So event k carries index k exactly when nothing was streamed
  (`TranscriptEvents.IndexCarried`). What a line says that fills a whole 4 MB chunk before its newline is lost
  (`TranscriptLog.MessageLost`); `TranscriptScan.ExactIffFits` says exactly when the reader is exact.
* `engine/chain.js`: `settleChain` follows one preferred link only; it can stop although another link leads to an
  attempt it has not visited (`Chain.OtherLinksNotFollowed`). That happens exactly when some loop of preferred links has
  a way out at its end (`Chain.CompleteIff`), and never where no attempt links to two others (`Chain.OneWayComplete`). A
  turn cap without a session is switched however often it happens (`ChainStep.TurnsNotBounded`), so the bound on
  attempts is for the other failures.
* `harness/index.js`: with a `maxAttempts` above one that is not whole, a run can end without a result
  (`HarnessRun.OneResultIffWhole`). An event emitted after the end of a process is not seen (`ProcessQueue.LateIsLost`).
* `engine/effort.js` and `engine/adapters/base.js` round alike for four of the seven harnesses the adapters know, and
  differ for the rest (`Effort.AgreeIffShared`).
* `harness/job.js`: the note that the rest was too long is also written over a session of which every line was kept:
  exactly when only the last cut made it fit (`SessionLog.NoteWithoutLossIff`), as it does for 500 results of 1600
  characters (`SessionLog.NotedWholeResults`).
* `server/data/ai-catalog.js`: the legacy single model is recognised on the raw list, so beside an entry without a name,
  or with white space around its id, it makes a catalog (`Money.NoCatalogIff`).

## Model

| member | source | states |
|---|---|---|
| `Seccomp.EncodeDecoded` | sandbox/seccomp.js:54-61 | decoding loses nothing: the eight bytes can be had back from the instruction |
| `Seccomp.Instruction` | sandbox/seccomp.js:54-61 | decoding what `insn` wrote gives back the code, both jump offsets and the word |
| `Seccomp.Push` | sandbox/seccomp.js:69-84 | pushing an instruction appends exactly it to the decoded program |
| `Seccomp.CheckedReturns` | sandbox/seccomp.js:69-84 | in a program whose jumps stay in range and that ends in a RET, every run from every point ends in a RET |
| `Seccomp.RunRules` | sandbox/seccomp.js:79-82 | running the rules from any point of the list answers EPERM exactly for the numbers still listed |
| `Seccomp.RunProgram` | sandbox/seccomp.js:69-84 | running the whole program gives the verdict for every architecture word and every number |
| `Seccomp.ProgramChecked` | sandbox/seccomp.js:69-84 | every jump of an emitted program stays in range and every path ends in a RET |
| `Seccomp.ProgramDecides` | sandbox/seccomp.js:64-84 | the program kills on another architecture, answers EPERM exactly on listed numbers (and on x64 from 0x40000000 on), and allows the rest |
| `Seccomp.EmittedCorrect` | sandbox/seccomp.js:64-84 | the emitted bytes, decoded, are that program |
| `Seccomp.Compile` | sandbox/seccomp.js:64-84 | for every syscall table the bytes are a correct filter, and there are none exactly for an unknown architecture |
| `Seccomp.CompileShipped` | sandbox/seccomp.js:21-43 | so are those of the tables the repository ships, for x64 and arm64 and no other |
| `TranscriptTidy.EveryFeedTidy` | engine/transcript.js:107-120 | in every transcript thinking that belongs together is one block, and no error repeats one of the three events before it |
| `TranscriptEvents.AddTool` | engine/transcript.js:123-128 | a call is put behind the others, which stay as they were, and the entry of its id leads to it |
| `TranscriptTidy.CallsFound` | engine/transcript.js:123-131 | for every feed an id leads to the last call that has it; each call is found under its own id if and only if no two have the same |
| `TranscriptTidy.ResultOnItsCall` | engine/transcript.js:130-144 | a result changes its own call only |
| `TranscriptEvents.IndexCarried` | engine/transcript.js:107-159 | after any lines, every event carries its own index if and only if no line was a streamed piece |
| `TranscriptEvents.Fold` | engine/transcript.js:194-307 | in every reachable state every id leads to an existing event |
| `TranscriptEvents.FoldAppend` | engine/transcript.js:194-307 | handling two runs of lines one after the other is handling them together |
| `TranscriptEvents.ReportAccounted` | engine/transcript.js:177-191 | after a report each turn's account is the maximum reported so far, field by field |
| `TranscriptEvents.UsageConserved` | engine/transcript.js:177-191 | the totals are the other events' usage plus the sum over turns of the per-field maximum |
| `TranscriptEvents.UsageOrderFree` | engine/transcript.js:177-191 | the totals depend on which reports came, not on their order or repetition |
| `TranscriptText.StreamSpells` | engine/transcript.js:147-159 | after lines that only stream, on a transcript with nothing of that kind open, the last event of the kind is open and spells the pieces in order, the last 20000 characters of them once there are two or more; pieces of the other kind between them do not matter |
| `TranscriptText.WholeReplaces` | engine/transcript.js:276-286 | a whole block leaves exactly its own words in the event that was streamed, which is closed, and touches no other event |
| `TranscriptText.StreamThenWhole` | engine/transcript.js:147-287 | so a message that was streamed and then came whole is one event with exactly its words |
| `TranscriptText.ThoughtsGlued` | engine/transcript.js:107-120 | thoughts in a row are one event: their words in order with an empty line between two, the end of them once they are long |
| `TranscriptText.ResultRead` | engine/transcript.js:166-173 | a result is read once: said by the final event, or marked on the last message when that says it, or neither when one of the last four events said it as an error |
| `TranscriptText.ExecRead` | engine/transcript.js:231-234 | the end of an exec is read in the same way |
| `TranscriptText.PlaceKept` | engine/transcript.js:211-221 | a message or a thought stands where it started, whatever came between; its words are put there and nowhere else |
| `TranscriptText.CallMade` | engine/transcript.js:123-128 | a call stands behind the others, pending, with its name, summary and its input up to 6000 characters and the count of the rest |
| `TranscriptText.ItemLands` | engine/transcript.js:202-210 | an item goes to the call its id leads to or makes it; its input is taken once, its output or its end settles it, and no other event changes |
| `TranscriptText.UnplacedRead` | engine/transcript.js:222-227 | a completed item without a place: a message or a thought comes last, an output goes to its call |
| `TranscriptText.TextRead` | engine/transcript.js:274-281 | a whole text that was not streamed is one new event; a blank one is none |
| `TranscriptText.WordsRead` | engine/transcript.js:291-297 | what a user says is an event of its own |
| `TranscriptText.SessionAndCost` | engine/transcript.js:300-306 | in every transcript the session is the last one named, and the cost the sum of what was told, none if nothing was |
| `TranscriptText.ReportOnce` | engine/transcript.js:177-191 | a turn's first report adds its tokens, those read from the cache to the prompt too; the same report again adds none |
| `TranscriptScan.ScanWeight` | engine/transcript.js:343-364 | the handed-on lines never amount to more bytes than the offset moves |
| `TranscriptScan.ExactIffFits` | engine/transcript.js:343-364 | the chunked read hands on exactly the complete lines and stops behind them if and only if lines and rest fit a chunk |
| `TranscriptLog.MessageLost` | engine/transcript.js:346-353 | what a line of one whole chunk before its newline says is not in the state, for every such line and reader |
| `TranscriptLog.Log.Push` | engine/transcript.js:107-120 | the method in place computes the specification |
| `TranscriptLog.Log.PushDelta` | engine/transcript.js:147-159 | the same for a streamed piece, which grows the open partial event or starts one |
| `TranscriptLog.Log.FinalEvent` | engine/transcript.js:166-173 | the same for the answer, which marks the last message when it repeats it |
| `TranscriptLog.Log.MinimaxUsage` | engine/transcript.js:177-191 | the same for a usage report |
| `TranscriptLog.Log.Handle` | engine/transcript.js:194-307 | the same for every kind of event |
| `TranscriptLog.ReadChunk` | engine/transcript.js:344-363 | one turn of the read loop is one turn of the scan |
| `TranscriptLog.Log.ReadChunks` | engine/transcript.js:343-364 | the read loop ends, and has folded exactly the lines the scan hands on |
| `TranscriptLog.ResumeExact` | engine/transcript.js:332-366 | reading on behind complete lines is as good as reading the whole file at once |
| `TranscriptLog.Log.ReadFile` | engine/transcript.js:343-364 | a state that had read a file's complete lines has read the grown file's |
| `Transcript.ParseText` | engine/transcript.js:315-324 | a text at once: the fold over its lines |
| `Transcript.BatchAgrees` | engine/transcript.js:315-366 | on text that ends in a newline the batch parser gives the state of the complete lines; only its line count is one more |
| `Transcript.Cache.Forget` | engine/transcript.js:28-33 | the account of the cache stays balanced when a file is forgotten |
| `Transcript.Cache.MakeRoom` | engine/transcript.js:40 | the files read longest ago go, and no more of them than needed |
| `Transcript.Cache.Remember` | engine/transcript.js:35-43 | the state is last, behind the longest run of the most recent others that leaves room; one too big is not kept |
| `Transcript.Cache.Parse` | engine/transcript.js:332-366 | through hits, cuts, missing files and states too big: what the answer has read, and that the cache's sum and both limits hold |
| `Transcript.SizeWithout` | engine/transcript.js:28-33 | the sum of the entries without one of them |
| `Transcript.Poll` | engine/transcript.js:332-366 | one call answers the state of the file's complete lines and leaves every cached state current |
| `Transcript.PollAll` | engine/transcript.js:28-43 | any sequence of calls: every answer is the fold over exactly the complete lines the file holds then |
| `Egress.ConfigureIff` | sandbox/egress-proxy.js:82-88 | what every knob comes to: no byte limit exactly for Infinity, the default budget for one that is not positive, bursts and rates as given, and no limit that lets nothing through |
| `Egress.Proxy.TakeToken` | sandbox/egress-proxy.js:101-109 | the session's bucket, or a host's, changes in place and nothing else does |
| `Egress.Proxy.Count` | sandbox/egress-proxy.js:118-130 | counting in place computes the specification and answers the bytes that may pass |
| `Egress.Proxy.OnAdmission` | sandbox/egress-proxy.js:212-231 | the admission steps in place: the latch, both buckets, the slots, in that order |
| `Egress.Proxy.OnClose` | sandbox/egress-proxy.js:246-247 | release in place |
| `Egress.FloorNeverNeeded` | sandbox/egress-proxy.js:246-247 | a slot is given back from a count above zero, which goes down by one |
| `Egress.ReleasedOnce` | sandbox/egress-proxy.js:246-271 | releasing again changes nothing |
| `Egress.EveryRunKeeps` | sandbox/egress-proxy.js:118-328 | every reachable state: budgets within limits, the spent one exactly at its limit, each host's count the number of its open transfers and within the cap |
| `Egress.AdmittedIff` | sandbox/egress-proxy.js:212-231 | in every reachable state a request is admitted if and only if the latch has not fallen, the session has a token, its host has one (a new host its burst) and the host's open transfers are below the cap; and which of these gives each refusal |
| `Egress.FirstSeen` | sandbox/egress-proxy.js:111-115 | a host seen for the first time begins with its whole burst, of which only its own turn takes a token |
| `Egress.RefusalsCounted` | sandbox/egress-proxy.js:132-225 | each counter of refusals is the number of requests that were refused so |
| `Egress.CountIsGranted` | sandbox/egress-proxy.js:118-130 | a direction's count is the sum of what was granted in it |
| `Egress.SpentIffOverAsked` | sandbox/egress-proxy.js:118-130 | the latch falls if and only if some direction was asked for more than its limit in all; until then all was granted |
| `Egress.NothingBehindTheLatch` | sandbox/egress-proxy.js:118-130 | behind the latch nothing is counted, granted or admitted in any continuation |
| `Egress.TakePays` | sandbox/egress-proxy.js:101-109 | a token taken is paid for by the allowance of the window |
| `Egress.RateHolds` | sandbox/egress-proxy.js:216-229 | within any window at most burst + rate * w / 1000 requests are admitted, to one host and in all, for every interleaving with a clock that never goes back |
| `Egress.EveryProxyHolds` | sandbox/egress-proxy.js:82-88 | so it is in every proxy that is given a rate, whatever else it is given |
| `Egress.BurstServed` | sandbox/egress-proxy.js:101-109 | the bound is reached: of requests at one moment a full bucket lets through exactly its whole burst |
| `Egress.RefillServes` | sandbox/egress-proxy.js:101-109 | a bucket serves if and only if what it holds and what the rate adds make a token |
| `Chain.CarriedBy` | engine/chain.js:132-136 | the loop computes the map of who carried whom on |
| `Chain.LatestCarries` | engine/chain.js:132-136 | the one that carried an attempt on is the latest naming it as its parent, the first of equals, and there is one when any does |
| `Chain.SettleChain` | engine/chain.js:139-152 | the walk in place computes the trail and its end |
| `Chain.TrailIsPath` | engine/chain.js:139-152 | on any graph: distinct attempts, linked in turn, at most 13, shorter only when the preferred link is missing or leads back |
| `Chain.PreferredIff` | engine/chain.js:143-146 | the link taken is to the one that carried the attempt on, else to its retry, else to what resolved it, unless that is where the walk began |
| `Chain.CompleteIff` | engine/chain.js:139-152 | every walk that stops early has visited all its end links to, wherever it starts, if and only if no loop of preferred links that can be walked round has a link out of its last attempt |
| `Chain.OneWayComplete` | engine/chain.js:139-152 | so it is wherever no attempt has links to two others |
| `Chain.OtherLinksNotFollowed` | engine/chain.js:147-148 | three attempts where an unvisited link is not followed |
| `Annotate.RetriedAs` | engine/chain.js:212-213 | the loop in place computes the end of the retry links |
| `Annotate.RetriesEnd` | engine/chain.js:212-213 | that end is the last of a path of retries; it is left only after eight, or where the next link leads nowhere |
| `Annotate.AttemptNumber` | engine/chain.js:281-285 | the loop over earlier attempts counts them, eight at most |
| `Annotate.NewestIsLatest` | engine/chain.js:218-219 | the chosen related attempt is the latest of its kind |
| `Annotate.AnnotateAll` | engine/chain.js:176-287 | the passes in place compute the annotated attempts |
| `Annotate.AnnotatedKeeps` | engine/chain.js:176-287 | nothing an attempt says of itself changes, and none appears or goes |
| `Annotate.SaidDoneIsDone` | engine/chain.js:222-278 | on attempts not annotated before, done and running name an attempt that really is done or at work |
| `Annotate.OwnersWordOnly` | engine/chain.js:204-278 | annotating calls no attempt handled or stopped of which the owner said neither |
| `Annotate.BackIsOwnEnd` | engine/chain.js:209-259 | an attempt to which the chain comes back is not said to have been ended by another |
| `Annotate.EndingPath` | engine/chain.js:241-249 | the path begins with the attempt, visits none twice, is the trail, and ends in the attempt named |
| `Annotate.SaidOf` | engine/chain.js:204-285 | the reason, the number, and exactly when nothing is said to have become of an attempt |
| `AnnotateEnds.EndsRight` | engine/chain.js:222-278 | an attempt that names an end is called done if and only if that end is done, running if and only if it is at work; else it is a failure, a stop at a limit only for such an end, or a note where the owner spoke or something is said of the end in turn |
| `AnnotateEnds.RelatedTaken` | engine/chain.js:213-219 | without a retry link a broken attempt is in the end said to be taken over by the latest related one at work, else done by the latest that finished, when nothing leads on from it |
| `AnnotateEnds.RetryTaken` | engine/chain.js:211-212 | with one, the last of its retries is said to have ended it, whatever is related besides, when it is done or at work and nothing leads on from it |
| `AnnotateNotes.NotesFollowed` | engine/chain.js:265-279 | a note is replaced if and only if it names another job whose chain ended done or at work, the first one named; it then tells that end, with the path there, and keeps the note beside it; the owner's own note is what is looked at |
| `ChainStep.ChoiceFits` | engine/chain.js:302-330 | the next runner is usable and another one, or the same with another model after a busy one; none exactly when none can take it |
| `ChainStep.ChoiceIsFirst` | engine/chain.js:309-328 | no usable runner stands before the chosen one in the order they are asked in |
| `ChainStep.RotatedAt` | engine/chain.js:321-324 | that order goes round from behind the runner that failed |
| `ChainStep.OtherModelIff` | engine/chain.js:317-320 | after a busy model exactly the next one of the list that is another is tried |
| `ChainStep.NextModelFirst` | engine/chain.js:316-321 | that model of the same runner comes before any other runner |
| `ChainStep.FirstTakesIt` | engine/chain.js:308-331 | otherwise the first runner in the order that can take the work gets it, with the model it is configured with |
| `ChainStep.NextStepIff` | engine/chain.js:433-486 | each answer of the next step, with its condition both ways on the status, the reason, the session and the facts of the end of the latest attempt's chain, and which session, limit, runner and model it names |
| `ChainStep.SwitchFits` | engine/chain.js:433-486 | what every switch satisfies: the runner, the owner's word, the status, the number of tries |
| `ChainStep.EndsInLast` | engine/chain.js:411-416 | a line of failed attempts ends in its last, with its number and its reason, and continues none the owner settled |
| `ChainStep.DrivenHadTries` | engine/chain.js:403-486 | in every driven chain an attempt was followed only with tries left, or after a turn cap |
| `ChainStep.DrivenStops` | engine/chain.js:403-486 | without turn caps driving a chain stops within four attempts, two when all are errors, whatever runners and load are at each step |
| `ChainStep.LineGoesOn` | engine/chain.js:464-486 | with another usable runner the step switches exactly while there are tries left: the bounds are reached |
| `ChainStep.TurnsNotBounded` | engine/chain.js:449-456 | a line that ended at a turn cap with no session is switched, however long it is |
| `ChainStep.RowIsLine` | server/domain/attempts.js:306-340 | the attempts of a task as the service describes them to the engine are a line, however soon one follows another |
| `HarnessRun.Follow` | harness/index.js:218-239 | one attempt's events: all stored in order, all but results yielded, the last result and the stall kept |
| `HarnessRun.RunTask` | harness/index.js:178-262 | the loops compute the run |
| `HarnessRun.OneResultLast` | harness/index.js:178-262 | exactly one result, last, behind everything stored but the agents' own results; good exactly when the last attempt was |
| `HarnessRun.AttemptsOrderly` | harness/index.js:181-260 | at most max(1, maxAttempts) attempts; each but the last failed and could be followed; a stalled one is never ok |
| `HarnessRun.AgentsDistinct` | harness/index.js:196-208 | no agent is asked twice when placement leaves out those it is told are down |
| `HarnessRun.ResultSaysWhat` | harness/index.js:181-260 | the agent that was asked for makes the first attempt, each later one is the one placed knowing who was tried; all they sent is stored, with a note between; the result says what the last came to: quiet, what it concluded last, or no result |
| `HarnessRun.ErrorIffNobody` | harness/index.js:194-203 | an error is yielded before the result exactly when the task was to be taken by somebody and nobody could be placed |
| `HarnessRun.OneResultIffWhole` | harness/index.js:181-253 | a result is certain for all worlds if and only if the limit is whole or at most one |
| `ProcessQueue.Pipe.Emit` | harness/process.js:22 | an event joins the queue and a registered wake-up fires once |
| `ProcessQueue.Pipe.Look` | harness/index.js:226-238 | what the run does with an answered `next()` |
| `ProcessQueue.StepKeeps` | harness/process.js:19-66 | every step keeps the invariant of queue, wake-ups and the `next()` in flight |
| `ProcessQueue.NothingLost` | harness/process.js:19-66 | for every interleaving: what was kept is a prefix of what was emitted; never parked while something waits; at the end all emitted before it is there |
| `ProcessQueue.StalledIff` | harness/index.js:224-231 | the attempt counts as stalled exactly when the timer once came first |
| `ProcessQueue.NeverStuck` | harness/process.js:57-64 | while something waits the consumer has a step to take |
| `ProcessQueue.Drains` | harness/process.js:57-64 | left to itself after the end the consumer takes everything emitted and stops |
| `ProcessQueue.LateIsLost` | harness/process.js:47-53 | an event emitted after the consumer ended is not seen |
| `Framing.Reader.OnData` | sandbox/session.js:197-207 | one chunk in place, with its loop over lines |
| `Framing.ChunksExact` | sandbox/supervisor.js:203-215 | however a stream that fits is cut, exactly its complete lines are processed and the rest is buffered |
| `Framing.RoundTrip` | sandbox/session.js:196-245 | frames written one a line are read back one by one, for every cutting, at both ends |
| `Framing.BothWays` | sandbox/supervisor.js:203-215 | with their own limits, both directions of the pipe deliver every frame |
| `Framing.NeverTripsIffFits` | sandbox/session.js:199 | the limit trips for no cutting if and only if every line and the rest are within it |
| `Framing.StartsAgain` | sandbox/supervisor.js:204-215 | when the limit trips the lines before it stand, and the supervisor reads on as if it had just begun |
| `Session.Sandbox.Request` | sandbox/session.js:240-247 | a request gets the next number and is pending, or is refused |
| `Session.Sandbox.OnFrame` | sandbox/session.js:227-238 | a frame settles or feeds the request it names, or is dropped |
| `Session.Sandbox.OnKilled` | sandbox/session.js:328-330 | everything pending is rejected, in order, once |
| `Session.OnlyOwnFrame` | sandbox/session.js:233-237 | no frame touches a request it does not name |
| `Session.RequestFate` | sandbox/session.js:227-247 | over a run a request ends with the payload of the first frame that ends it, is rejected when the process went first, or is still pending; what was collected for it is what frames for it brought, in order |
| `Session.MadeAndEnded` | sandbox/session.js:227-337 | which numbers were made in a run, and how each ended |
| `Session.RequestsCounted` | sandbox/session.js:240-247 | every request is written, in turn, or refused, and none is refused while the sandbox runs |
| `Session.EveryRunKeeps` | sandbox/session.js:227-337 | numbers never reused; each request pending or ended, once; one cleanup; a wiped sandbox has nothing pending and all ended |
| `Session.NoWayBack` | sandbox/session.js:307-337 | running, wiping, wiped, one way; what ended stays ended; nothing is added once wiped |
| `Cdp.Client.OnEvent` | sandbox/browser.js:66-74 | the loop over a copy of the waits ends exactly those the event matches |
| `Cdp.Client.OnTimer` | sandbox/browser.js:53-57 | a timer splices by position |
| `Cdp.TimerTakesItsOwn` | sandbox/browser.js:53-57 | that position is always its own wait's |
| `Cdp.EventEnds` | sandbox/browser.js:66-74 | an event ends every wait for its name, in its session or in any, and no other |
| `Cdp.ReplySettles` | sandbox/browser.js:59-65 | a reply settles its own call and touches nothing else |
| `Cdp.ClosedForGood` | sandbox/browser.js:42-82 | once the browser is gone no call is made any more |
| `Cdp.EveryRunKeeps` | sandbox/browser.js:36-83 | a timer is armed exactly while its wait is listed; every wait and every call ends at most once |
| `Supervisor.Command.OnData` | sandbox/supervisor.js:80-87 | one chunk in place |
| `Supervisor.ForwardsFirst` | sandbox/supervisor.js:80-87 | for every cap and interleaving, exactly the first bytes of the output are forwarded, each on its stream |
| `Supervisor.TruncatedIffMore` | sandbox/supervisor.js:80-87 | truncation is reported if and only if there was more |
| `Supervisor.OneExit` | sandbox/supervisor.js:94-105 | one exit however many events end a command, none before |
| `Supervisor.ExitTells` | sandbox/supervisor.js:80-99 | the exit frame says it was cut exactly when more was written than was forwarded before it, and that it timed out exactly when the timer fired before it |
| `Supervisor.Collect` | sandbox/session.js:249-257 | the worker's two buffers hold the beginning of each stream |
| `Supervisor.EndToEnd` | sandbox/session.js:249-268 | for a positive cap the worker cuts nothing more: each stream is its share of the first bytes written |
| `EventsConsumer.Consumer.OnInsertClaim` | server/events-consumer.js:84-90 | the insert at the head of the transaction |
| `EventsConsumer.Consumer.OnCommit` | server/events-consumer.js:91-96 | effect and inbox row commit together |
| `EventsConsumer.StepKeeps` | server/events-consumer.js:51-100 | every step of every handler keeps the lock, the once and the count |
| `EventsConsumer.EffectivelyOnce` | server/events-consumer.js:51-100 | the effect commits at most once per event; a row is there exactly when one delivery counted |
| `EventsConsumer.RowsJustified` | server/events-consumer.js:61-92 | in every run each row has a delivery of its event that explains it: an effect only where its job was found and the same subject and project asked, an ignored one only for the reason that held |
| `EventsConsumer.OwnStepsServe` | server/events-consumer.js:67-92 | a delivery of a new event whose job is found for the same subject and project commits its effect by its own steps |
| `EventsConsumer.OwnStepsIgnore` | server/events-consumer.js:67-73 | any other is recorded as ignored with its reason, and has no effect |
| `EventsConsumer.OwnStepsMalformed` | server/events-consumer.js:51-66 | so is one whose payload names no job of ours |
| `EventsConsumer.LaterIsDuplicate` | server/events-consumer.js:67-90 | a later delivery answers duplicate or fails, without effect, and the row stays as it is |
| `EventsConsumer.NeverStuck` | server/events-consumer.js:82-100 | a delivery in flight can go on, or the one holding its event's id can |
| `CodexFeed.Feed.OnItemLine` | engine/adapters/codex.js:93-120 | one item in place |
| `CodexFeed.Feed.End` | engine/adapters/codex.js:148-157 | the loop over unanswered calls and the closing event |
| `CodexFeed.LineKeeps` | engine/adapters/codex.js:121-147 | every line keeps the pairing |
| `CodexFeed.CallTold` | engine/adapters/codex.js:68-114 | an item of a call announces it unless that was done, under the name of its kind, and answers it when complete, once, as an error exactly when it went wrong |
| `CodexFeed.FileChangeTold` | engine/adapters/codex.js:102-111 | a completed file change is one call and one answer for each change, in order |
| `CodexFeed.LineTold` | engine/adapters/codex.js:90-146 | what every other line is turned into |
| `CodexFeed.EndTold` | engine/adapters/codex.js:148 | what the end adds before the closing event are failed answers to the calls that had none |
| `CodexFeed.FeedCounts` | engine/adapters/codex.js:122-126 | the session is the last thread started, and every turn is counted |
| `CodexFeed.FeedPairs` | engine/adapters/codex.js:63-157 | at the end each call has exactly one answer, later than it; no answer lacks a call; one closing event, last: success exactly when a message was completed, no line failed and the process ended well, with the last message, else the last failure, else that there was none |
| `Effort.FitEffort` | engine/effort.js:60-67 | the search loop computes the fitted level |
| `Effort.EffortFor` | engine/adapters/base.js:82-93 | the adapters' search loop computes the fitted level of their table |
| `Effort.FitIsNearest` | engine/effort.js:60-67 | a listed level of least distance, ties going up |
| `Effort.FitIdempotentMonotone` | engine/effort.js:60-67 | fitting twice is fitting once; a stronger wish never gets a weaker level |
| `Effort.OthersPass` | engine/effort.js:60-67 | no level, an unknown level, and any level where a harness has none pass as they are |
| `Effort.AgreeIffShared` | engine/adapters/base.js:61-93 | the two implementations agree on every level exactly for four harnesses |
| `Effort.NeverBlocked` | engine/effort.js:112-118 | a launch never gets a refused model, but the first of the list that is left; an error exactly when none is left, or that one has no name |
| `SessionLog.Keep` | harness/job.js:381-404 | the loops compute what is kept, each cut as if made once from the start |
| `SessionLog.CutAllTwice` | harness/job.js:394-398 | cutting in turn equals cutting once to the smallest |
| `SessionLog.WithinLimit` | harness/job.js:381-404 | the result is within the limit but for the closing note, and unchanged when it fits |
| `SessionLog.FittingFits` | harness/job.js:399-401 | the kept beginning fits, is everything when everything fits, and the next line would not have fitted |
| `SessionLog.LogFollows` | harness/job.js:381-404 | same lines, same order; only outputs, progress, edit inputs and picture bytes shortened; progress left out only where its result is |
| `SessionLog.CutAsNeeded` | harness/job.js:381-404 | which of the cuts was made, by what did not fit before it: no picture bytes are left, no early progress, and every text is whole or at its cut length |
| `SessionLog.CutShort` | harness/job.js:394-398 | a cut leaves no part that may be shortened longer than it says |
| `SessionLog.NoteWithoutLossIff` | harness/job.js:381-404 | the note is written over a session of which every line was kept exactly when only the last cut made it fit |
| `SessionLog.NotedWholeResults` | harness/job.js:394-403 | five hundred results of 1600 characters are such a session |
| `SessionLog.ImageAttachments` | harness/job.js:300-315 | the loop takes pictures while they fit |
| `SessionLog.BudgetConserved` | harness/job.js:300-315 | bytes taken plus budget left is constant; a picture is left out only if it may not travel or did not fit |
| `SessionLog.ShotWithBytes` | harness/job.js:321-334 | a screenshot's bytes travel exactly when its file can be read, is small enough and, with a budget, still fits |
| `Numerals.ValueOfDigits` | server/data/ai-catalog.js:44 | a number's digits stand for it |
| `Money.DollarsExact` | server/data/ai-catalog.js:40-48 | reading an amount back gives its nano-dollars, for every amount; two to nine decimals, no trailing zero past the second |
| `Money.DollarsInjective` | server/data/ai-catalog.js:40-48 | two amounts are never written alike |
| `Money.PriceExact` | server/data/ai-catalog.js:40-48 | a price exactly for an integer of 1 to 19 digits; it reads back as that amount, and two are the same text exactly for the same amount |
| `Money.ParseCatalog` | server/data/ai-catalog.js:112-138 | the loop computes the catalog |
| `Money.CatalogOrder` | server/data/ai-catalog.js:112-138 | every alias before every exact id, aliases in the picker's order and stable, nothing added, lost or doubled |
| `Money.NoCatalogIff` | server/data/ai-catalog.js:112-127 | no catalog exactly when there is no list, the raw list is the legacy model alone, or no entry of it can be offered |
| `Models.Choices` | server/data/models.js:43-65 | the nested loops compute the choices |
| `Models.ReadBackIff` | server/data/models.js:67-78 | an offered value is read back exactly when its model id has no bar |
| `Models.EveryModelOffered` | server/data/models.js:43-65 | Auto is first, and every model of every agent is offered |
| `Models.MeaningKnown` | server/data/models.js:67-78 | a value never means an agent that is not offered, nor a model this agent does not have |
| `Models.ParseUndoesChoices` | server/data/models.js:43-78 | parsing undoes choosing for everything offered whose ids have no bar |

## Left out

- Sockets, DNS, HTTP parsing, child processes, cgroups, bubblewrap, the file system, databases, the network and the user interface: what they answer is a parameter; the clock is a number that never goes back.
- The rules over text that classify failures, find related jobs (`base`, `chainRoot`, the groups of `annotate`), find keys in a note, redact secrets or describe a tool: given functions from text.
- Transcripts are byte strings: splitting UTF-8 at byte 10 is safe by section 3 of RFC 3629, and what JSON.parse makes of a line is a given function; colour codes, tool kinds, exit numbers, model names, working directories, timestamps and MiniMax's session ids are not in the parse state; a handler that throws midway is not modelled.
- TranscriptEvents: the merge of streamed text deltas (`ev.delta`) is not modelled: no caller sets it.
- `TranscriptTidy.CallsFound`: leaves out feeds in which a call's id begins with "m:", because the index keeps the places of messages under such keys.
- Egress: the bytes a client sends together with CONNECT are written without being counted, and the limit on open sockets, the guard on host names and what is written to the sockets are not part of the model; fractional limits and infinite rates or bursts are not modelled; token buckets hold exact reals, where the source rounds to floating point.
- Chain: the word list of `path` (names and states) and the names next to `by` are left out, as is `facts` read from a list of events and the effort of a switch; attempt keys are unique and not empty, as the source says they are.
- `ChainStep.DrivenStops`: attempts that end at a turn cap are outside it, because they are not bounded; `ChainStep.DrivenHadTries` includes them.
- `ChainStep.EndsInLast`: attempts within a minute of each other that do not name their retries are outside it, because each is then taken for the follower of the other; so are more than 13 so close together, because a walk over the links takes twelve steps.
- `HarnessRun.OneResultIffWhole`: an adapter or a store that throws ends a run without a result (harness/index.js:215-235), because a world of the model only answers.
- HarnessRun: prices, durations, session ids, the candidates' reasons in an error and the text of the hand-off note; an agent ends after finitely many events.
- Session: the promises themselves, readiness and its timeout, the editor's file calls, the browser's start; which process outlives the wipe.
- EventsConsumer: signatures, subscriptions, account events, what `applyEvent` writes and the decision after an attempt ended.
- SessionLog: the length of a line's JSON is a given function of the line.
- Codex: the texts of inputs and results; a message that is blank is taken as empty.
- `engine/joblines.js`, `engine/jobrunner.js`, `server/domain/bench-publisher.js`, `stepUp`: the code does not give the property one would state.
- `engine/budget.js`, `engine/router.js`, `engine/proof.js`, `server/domain/approvals.js`, `sandbox/signature.js`: mostly facts of one branch; only `wrapUp` is used, in the next step.
