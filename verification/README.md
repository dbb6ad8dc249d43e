# A verified model of agent-lab

This project models the parts of agent-lab whose correctness depends on order, interruption or
exact text, and proves what each of them promises. Every statement is about all inputs, all
runs or all interleavings; `dafny verify dfyconfig.toml` checks them.

## What is modelled

**Model downloads** (`ModelStore`, `DiskLaws`, `Download`, `Replies`, `Pull`, `Sessions`, `Models`). The model's directory is a value with
targets, partial files, `state.json`, free bytes and a clock; every file-system effect is recorded
in a history. A pull that is killed between two effects leaves one of the disks in that
history, so a statement about all of them is a statement about crashes. The hash is an arbitrary
function of the content, and a server is an arbitrary function from file, attempt and offset to an
answer; *honest* servers are those that sections 14.2 and 15.3.7 of RFC 9110 describe. `Sessions` runs
whole histories: pulls of changing entries, each killed after any effect, with edits in between,
and repeated pulls that converge although each may be killed.

**Detached processes** (`ProcessProtocol`, `ProcessOutcomes`, `ProcessAnswers`). Any number of concurrent `start` and `stop` calls as a
transition system: the file lock (released while the child loads), the record, the ready file,
children that die at any moment, pids that are reused by other programs. The backend and the
gateway run the same protocol.

**The request queue** (`RequestQueue`, `QueueProtocol`, `ResponseTasks`, `ResponseEnds`). `RequestQueue` is
a class with the counters and a FIFO lock, proved against a value specification; `QueueProtocol` lets
any number of requests use it, with a cancellation at every await. `ResponseTasks` has the tasks behind
each request (response, answer, producer, buffer), whose steps are steps of that protocol, and
`ResponseEnds` shows how they end.

**Answering** (`BackendStream`, `Chunks`, `Assembly`, `Heartbeats`, `Silence`, `Answers`, `Sse`). Reading the
backend's stream, the assembled and the streamed answer, the producer, buffer and consumer with
keep-alive comments, the same with a clock, and what two clients get for one request.
A client is a reader of event streams as section 9.2.6 of the WHATWG HTML standard defines it.

**Keys** (`KeyFile`, `KeyCommands`, `KeyStore`). The printed key file and a reader for the part of
TOML v1.0.0 it uses (sections "Comment", "Keys", "String", "Table"), the two commands, and the
gateway's cache with a writer that may strike before and between its two looks at the file.

**The registry** (`Toml`, `Sizes`, `ModelFiles`, `Registry`, `RegistryText`, `RegistryFile`, `HandWrittenEntry`, `DiskSpace`). Strings,
sizes, file names, validation, printing, reading back, `write_entry`, and what the declared disk space has to
do with what a pull counts.

**Profiles and requests** (`Section`, `Config`, `ProfileFile`, `Translate`, `Requests`, `Crashes`, `Tokens`). Validation
that collects its errors, the token budget that an accepted profile guarantees, the translation of a chat
request, and the normalisation of messages before they are counted. `ProfileFile` and `Requests` say once
more, in the words of the files and of the API, which keys are read, accepted, blamed and sent.

**Logs** (`LogStream`, `Text`). The stream that turns writes into log records.

`Wrappers`, `Json`, `Order` and `Sums` hold what the others share.

## What the proofs found

Some obvious claims do not hold as they stand. The code is modelled as it is; the exact
condition is proved instead.

- The disk check counts too little when missing files share a sha256 and there is a partial file to
  resume, because partial files are named by hash (`Pull.RemainingIsExact`, `Pull.RemainingCanBeTooLow`).
- A failed download can leave a partial file that is too long: the last attempt was sent too much and
  then could not close the file or the response, which skips the length check (`Download.FailureLeavesOversized`,
  `Download.OversizedIsLeft`). The next pull deletes it.
- A pull of a complete model changes nothing, but it still fails if the disk has less than the margin
  free (`Pull.Run`, `Sessions.CompleteCanBeFull`).
- A start that ends between spawning its child and recording it, because it is killed there, or because
  it cannot save the record and the child survives SIGKILL, leaves a live process that nobody knows; one
  more start makes two (`ProcessProtocol.RunsAreOrderly`, `ProcessOutcomes.StartsCanStray`,
  `ProcessOutcomes.KilledStartStrays`). A run is orderly throughout exactly if that never happens in it.
- A start that fails can take away the record of another start: it clears the files of a dead process
  before it spawns. It does so exactly if there was a record when it got the lock and it came to clear
  the files, and never to a live process (`ProcessOutcomes.StartTakesWhatItFound`,
  `ProcessOutcomes.FailedStartCanTakeARecord`, `ProcessOutcomes.FailedStartCanLeaveTheRecord`).
- A response that is cancelled again while it waits for its answer to end does not give up its place.
  The place stays counted exactly if its request had not reached the lock
  (`ResponseEnds.EveryRequestEnds`, `ResponseEnds.CutResponses`, `ResponseEnds.RequestsCanStrand`). Only
  the end of the server does that.
- A delta with text under `reasoning_content` and none under `reasoning` reaches streaming clients but
  not the assembled answer (`Chunks.AnswersAgree`, `Chunks.StrayReasoningDisagrees`).
- A stream that ends cleanly without any chunk is an error for the client that does not stream, and
  a successful empty answer for the one that does (`Answers.StreamedIsAssembled`,
  `Answers.EmptyAnswersDisagree`).
- A usage chunk that is filtered out restarts the heartbeat timer without sending anything. The longest
  possible silence is one interval more than intervals for the longest row of filtered chunks, so that
  a byte in every interval is guaranteed exactly if none is filtered (`Silence.SilenceIsBounded`,
  `Silence.SilenceIsReached`, `Silence.InTimeIffNothingIsFiltered`, `Silence.OneUsageChunkIsLate`).
- `_toml_string` does not escape control characters, and `render_entry` ignores the entry's own disk
  space (`Toml.TomlStringRoundTrips`, `RegistryFile.WriteSucceeds`, `RegistryFile.WriteKeepsTheOthers`,
  `HandWrittenEntry.DeclaredSpaceIsLost`). An
  entry whose description was written by hand with an escaped newline can be loaded, but from then on
  no other entry can be written (`HandWrittenEntry.HandWrittenBlocksWrites`).
- `_render` escapes nothing. A hand-edited date with a quote, a backslash or a control character makes
  the next `create` or `revoke` write a file that does not say what it was meant to
  (`KeyFile.RoundTrip`, `KeyCommands.CommandStoresItsList`, `KeyCommands.EditedDateSpoilsTheFile`). Bytes
  that are not UTF-8 raise an error that nobody catches; the cache then stays as it was
  (`KeyStore.Store.Refresh`).
- If the chat template's effort argument were called `enable_thinking` it would overwrite the
  switch; the profile's rules rule that out (`Translate.SwitchAgrees`, `Translate.EffortCanCoverTheSwitch`,
  `Translate.CountedIsRendered`).
- `prepare` ends with an exception that is not an ApiError exactly if the first thing wrong is a role that
  is a list or an object, tool-call arguments nested too deep, or an integer too large for a float
  (`Crashes.PrepareCrashes`, `Crashes.RoleCanCrash`, `Crashes.ArgumentsCanCrash`, `Crashes.NumberCanCrash`).

## Assumptions

- Every write gives a file a modification time it never had before, and `state.json` does not count
  towards the free space. Target names are flat. Nobody else edits the directory during a pull; between
  pulls anyone may edit or delete targets (`ModelStore.EditsKeepSafe`).
- Processes whose command line names the module come only from starts; checking that and sending a
  signal is one step in `stop`. A call may end, or be killed, at every step.
- `asyncio.Lock` wakes its waiters in order, and the callback for queue changes does not fail. Order
  means the order of joining the lock, not of reserving a place. A backend sends finitely many chunks.
- Every version of the key file has its own stamp. A hash is compared in its printed form. A key or
  registry file in another layout than the printed one is given by what it means (`KeyFile.Covered`,
  `RegistryFile.Covered`), one that is no TOML as unreadable; TOML has no null.
- Decimal fractions are exact in `parse_size`, `disk_space_for` and the bounds of number fields. The
  estimate that `disk_space_for` starts from is a parameter where it may be rounded.
- Digits and letters in sizes and token ids are ASCII. `\u` escapes do not occur in what is printed
  and are not read. Dates in TOML are strings, as the program prints them.
- JSON text becomes values through a decoder that is a parameter, and so is the order in which the keys
  of an object are met. The decoder may refuse text as nested too deep; values that it has decoded are
  taken to be shallow enough to be copied and printed.
- The clock of `Silence` counts time only while the consumer waits; an entry that arrives at the very
  end of a wait may still be taken.

## Model

| member | source | states |
|---|---|---|
| ModelStore.DownloadedMeansVerified | src/agent_lab/pull.py:136-150 | On a safe disk `local_state` is DOWNLOADED only if every file of the entry asked about, whatever entry that is, is present with the registry's hash |
| ModelStore.EditsKeepSafe | src/agent_lab/pull.py:112-124 | Any edits and deletions of targets between pulls leave every record that matches its file true |
| ModelStore.MoveKeeps | src/agent_lab/pull.py:405-413 | Renaming a partial file over a target, which keeps its time, cannot make an old record match the wrong content |
| ModelStore.KnownIsTrue | src/agent_lab/pull.py:112-124 | A recorded hash that is believed is the true hash of the file |
| ModelStore.RememberKeeps | src/agent_lab/pull.py:126-130 | Recording the hash just computed keeps all records true |
| ModelStore.Records.Remember | src/agent_lab/pull.py:126-130 | Records the stamp and hash, and takes one mention off the failures |
| ModelStore.Records.Forget | src/agent_lab/pull.py:132-133 | Drops the record of one name and no other |
| DiskLaws.EffectsConserve | src/agent_lab/pull.py:264-414 | Every effect takes exactly the room that it gives to a file and gives back what it takes from one, so free bytes and files together stay what they were |
| DiskLaws.EditsConserve | src/agent_lab/pull.py:112-124 | So do edits by hand |
| DiskLaws.RememberedIsKnown | src/agent_lab/pull.py:112-130 | What is remembered of a file is known exactly as long as size and time are the same |
| DiskLaws.RemovesTheFirst | src/agent_lab/pull.py:126-130 | Taking a name off the failures removes its first mention and no other |
| DiskLaws.NothingIsDownloaded | src/agent_lab/pull.py:136-150 | A new directory is NOT_DOWNLOADED |
| DiskLaws.EditedIsUnverified | src/agent_lab/pull.py:136-150 | A downloaded model is UNVERIFIED after any of its files was written, even with the same content |
| DiskLaws.RemovedIsIncomplete | src/agent_lab/pull.py:136-150 | After one of its files was removed it is INCOMPLETE, unless nothing of it is left |
| DiskLaws.RecordsDecide | src/agent_lab/pull.py:136-150 | Without its records a downloaded model is UNVERIFIED; a file on record as failed makes any model FAILED |
| Download.DoneIsExact | src/agent_lab/pull.py:248-293 | Success against any server leaves exactly the expected number of bytes, within three requests |
| Download.ResumeKeepsPrefix | src/agent_lab/pull.py:248-293 | From an honest server the partial file stays a prefix of the pinned content, and success means all of it |
| Download.NothingIsFetchedTwice | src/agent_lab/pull.py:248-293 | With ranges honoured and nothing sent past the end, bytes received plus bytes still missing is what was missing before |
| Download.FailureLeavesOversized | src/agent_lab/pull.py:264-292 | A failed download leaves too long a partial file if and only if the last attempt overshoots and then cannot close the file or the response |
| Download.OversizedIsLeft | src/agent_lab/pull.py:275-292 | A server that brings this about |
| Download.PullsConverge | src/agent_lab/pull.py:248-293 | Productive downloads from honest servers, as many as bytes are missing, end with the whole content |
| Download.HonestIsBounded | src/agent_lab/pull.py:263-274 | An honest server never sends more than a file has left |
| Download.WriteBody | src/agent_lab/pull.py:264-274 | The chunk loop appends or restarts as the status says, stops once the file is too long, and every disk on the way differs only in this partial file |
| Download.Run | src/agent_lab/pull.py:238-293 | The loops do what the specification of downloads says, effect by effect; a kill in between leaves all other files alone, from an honest server a prefix, and if ranges are honoured all that could be kept |
| Replies.AttemptByReply | src/agent_lab/pull.py:254-293 | One attempt ends well exactly if the answer brings the file to its size unbroken, for good exactly on a fatal error or too many bytes, and otherwise goes on where the answer left off |
| Replies.FailureIsAnswered | src/agent_lab/pull.py:248-293 | A download that fails got no complete answer, and either one for good or as many as are asked for at most |
| Replies.DeliveredIsDone | src/agent_lab/pull.py:248-293 | If a complete answer comes within the attempts, whatever was refused, broken off or short before, the download succeeds |
| Replies.ThreeAttempts | src/agent_lab/pull.py:248-293 | There are three attempts: the third can succeed, and after three refusals there is no fourth |
| Pull.RemainingIsExact | src/agent_lab/pull.py:375-386 | The disk check counts what will be fetched if and only if no missing file shares its hash with an earlier one whose partial file can be resumed |
| Pull.RemainingCanBeTooLow | src/agent_lab/pull.py:375-386 | Two files with one hash and five bytes to resume: ten counted, fifteen fetched |
| Pull.RemoveStrayPartials | src/agent_lab/pull.py:308-316 | Removes exactly the partial files that no file of the entry refers to, keeping the rest and the records' truth |
| Pull.Inspect | src/agent_lab/pull.py:354-373 | Missing are exactly the files that were not in place with the right hash, in order; the others have matching records; known files are not hashed |
| Pull.CountRemaining | src/agent_lab/pull.py:375-380 | The sum over the missing files of what their partial files do not hold |
| Pull.FetchFile | src/agent_lab/pull.py:397-414 | One file is downloaded and either verified in place or deleted and marked as failed; every disk on the way is safe and within the accounted space |
| Pull.FetchMissing | src/agent_lab/pull.py:394-414 | Phase 3 leaves every file in place with a true record or named among the mismatches, and fetches what the plan counts; it stops early only at a file for which no complete answer came |
| Pull.FetchNext | src/agent_lab/pull.py:397-414 | The loop's step for one file, for the whole model: what it fetched, kept, verified or named |
| Pull.Run | src/agent_lab/pull.py:330-424 | Safe at every effect; returning means every file verified and nothing failed; a second pull changes, fetches and hashes nothing; free space never falls below the margin or its start; `downloaded_bytes` is what was fetched; mismatches are reported and removed; from a reliable server nothing mismatches, every byte fetched is one less to fetch, and a kill at any effect loses no byte and no room; with room and a complete answer for every file in time it returns, and a failed download names a missing file for which there was none |
| Sessions.CompleteCanBeFull | src/agent_lab/pull.py:381-386 | A complete model of one acceptable file, on a disk too full for the next pull to succeed |
| Pull.LostChanges | src/agent_lab/pull.py:375-415 | What one file gains or loses is the whole change of what is still to be fetched |
| Pull.StepIsKeeping | src/agent_lab/pull.py:397-414 | What one file keeps while it is downloaded and moved is kept for the whole model |
| Sessions.RunAll | src/agent_lab/pull.py:330-424 | Over any list of pulls of changing entries, each killed after any effect, and edits in between, every disk passed through is safe and "downloaded" is never said of files that are not in place |
| Sessions.EmptyDiskIsSafe | src/agent_lab/pull.py:92-103 | A new directory is safe to start from |
| Sessions.PullUntil | src/agent_lab/pull.py:330-424 | A pull killed after any number of effects leaves a safe disk; from a reliable server no byte that was fetched and no room is lost |
| Sessions.PullRepeatedly | src/agent_lab/pull.py:330-424 | Over pulls that may each be killed at any effect, with room and reliable servers: what is missing never grows, no pull fails for want of room, and if every pull that does not return leaves less to fetch, one returns within as many pulls as bytes were missing, plus one |
| ProcessProtocol.RunsKeepInvariant | src/agent_lab/backend/process.py:233-358 | Over every interleaving of starts, stops, failures, kills, exits and reused pids the invariant holds throughout if and only if no start strays |
| ProcessProtocol.RunsAreOrderly | src/agent_lab/backend/process.py:203-279 | A run is orderly at every moment (at most one backend live, recorded whenever the lock is free, only children of starts signalled) if and only if no start strays in it |
| ProcessProtocol.StepKeeps | src/agent_lab/gateway/process.py:87-152 | Every step but the straying one keeps all nine parts of the invariant; the gateway runs the same steps |
| ProcessProtocol.LiveKept | src/agent_lab/backend/process.py:246-279 | Every live process stays recorded, or is the one that the holder of the lock has just spawned |
| ProcessProtocol.StrayBreaks | src/agent_lab/backend/process.py:267-271 | The straying step does break the invariant, so the condition is exact |
| ProcessProtocol.StrayMeansTwo | src/agent_lab/backend/process.py:267-271 | After it, one more start leads to two live processes |
| ProcessProtocol.SpawnsAlone | src/agent_lab/backend/process.py:246-265 | A start spawns only when nothing is live |
| ProcessProtocol.StrayIsDisorder | src/agent_lab/backend/process.py:267-271 | The straying step breaks what a user relies on, not only the invariant |
| ProcessOutcomes.StartTakesOnlyDeadRecords | src/agent_lab/backend/process.py:246-279 | The only step at which a start changes another start's record is clearing the files before it spawns, completed or interrupted, and then that record's process is not live |
| ProcessOutcomes.StartTakesWhatItFound | src/agent_lab/backend/process.py:246-279 | However a start ends, it has taken away another start's record if and only if there was one when it got the lock and it came to clear the files |
| ProcessOutcomes.FailedStartCanTakeARecord | src/agent_lab/backend/process.py:246-257 | Such a run: one start's process dies, a second start clears its record and fails to spawn |
| ProcessOutcomes.FailedStartCanLeaveTheRecord | src/agent_lab/backend/process.py:246-249 | A run in which a start finds a record, is interrupted while it reads the status, and leaves it |
| ProcessOutcomes.StartsCanStray | src/agent_lab/backend/process.py:266-271 | From nothing, a run that strays, and one that ends with two live processes |
| ProcessOutcomes.KilledStartStrays | src/agent_lab/backend/process.py:257-268 | So does a start that is killed right after it has spawned its child |
| ProcessProtocol.SuccessIsOwn | src/agent_lab/backend/process.py:282-297 | Success is reported only on a ready file of the start's own child |
| ProcessAnswers.AnswersAreTrue | src/agent_lab/backend/process.py:228-279 | Over every run a call that answers that it started a process has spawned it and seen its ready file, one that answers that it found one names a live process that another call had spawned and recorded, and only a stop answers that it stopped |
| ProcessAnswers.StartCanSpawn | src/agent_lab/backend/process.py:246-268 | With the lock free and nothing running a start spawns its child and records it |
| ProcessAnswers.StartCanSucceed | src/agent_lab/backend/process.py:272-297 | If the child becomes ready the start succeeds and the process stays recorded and live |
| ProcessAnswers.StartCanFindRunning | src/agent_lab/backend/process.py:246-249 | A start that finds a live process reports it and changes nothing |
| ProcessAnswers.StartCanFail | src/agent_lab/backend/process.py:274-279 | A start whose child dies ends with an error and clears its files |
| ProcessAnswers.StopCanSucceed | src/agent_lab/backend/process.py:339-358 | A stop signals the recorded process and, once that is dead, clears the files |
| ProcessProtocol.StopStops | src/agent_lab/backend/process.py:344-358 | When a stop returns, nothing is live and nothing is recorded |
| RequestQueue.OperationsKeepConsistent | src/agent_lab/gateway/queue.py:48-82 | Reserving, joining, waking and leaving keep the counters equal to the places and the lock, and within the limit |
| RequestQueue.CancelKeepsConsistent | src/agent_lab/gateway/queue.py:71-75 | So does cancelling a waiter |
| RequestQueue.ReleaseKeepsConsistent | src/agent_lab/gateway/queue.py:77-82 | So does the end of the slot |
| RequestQueue.RequestQueue.TakePlace | src/agent_lab/gateway/queue.py:60-66 | Refused exactly if one more than `queue_size` are active or waiting; otherwise a new waiting place |
| RequestQueue.RequestQueue.LeaveQueue | src/agent_lab/gateway/queue.py:48-58 | The place is counted off once, runs if it starts, and the change is reported exactly if there is one |
| RequestQueue.RequestQueue.Acquire | src/agent_lab/gateway/queue.py:68-76 | The lock is taken at once only if it is free and nobody waits; else the request waits at the end |
| RequestQueue.RequestQueue.Proceed | src/agent_lab/gateway/queue.py:72-76 | The first waiter gets the free lock, stops waiting and runs |
| RequestQueue.RequestQueue.Withdraw | src/agent_lab/gateway/queue.py:71-75 | A cancelled waiter leaves the lock's list and its place, and disturbs nobody else |
| RequestQueue.RequestQueue.Done | src/agent_lab/gateway/queue.py:77-82 | The slot is free again and the counters are reported |
| RequestQueue.RequestQueue.GiveUp | src/agent_lab/gateway/queue.py:27-29 | Leaves if still waiting, and does nothing once the request runs or has left |
| QueueProtocol.RunsKeepInvariant | src/agent_lab/gateway/queue.py:40-82 | In every reachable state `active` is 1 exactly while one request holds the lock, `waiting` counts the flagged places, the sum is within the limit, the last report is current, and requests started in the order they joined |
| QueueProtocol.ArrivalsByCount | src/agent_lab/gateway/queue.py:43-66 | In every reachable state an arrival is refused exactly if one more request than `queue_size` prepares, waits, runs or has yet to give up its place |
| QueueProtocol.OrderKeptOnWithdrawing | src/agent_lab/gateway/queue.py:68-76 | A cancelled waiter disappears from the order without moving anyone else |
| QueueProtocol.OneRunsKept | src/agent_lab/gateway/queue.py:76-82 | Exactly one request is in the slot while the lock is held, none otherwise |
| QueueProtocol.FreeLockGoesToFirst | src/agent_lab/gateway/queue.py:35-36 | A free lock with waiters goes to the one that joined first |
| QueueProtocol.EventsUseUp | src/agent_lab/gateway/app.py:532-551 | Every event but an arrival lowers what is left to happen |
| QueueProtocol.SomethingCanHappen | src/agent_lab/gateway/app.py:532-551 | While any request is in, some event other than an arrival is enabled |
| QueueProtocol.NothingLeaks | src/agent_lab/gateway/app.py:543-551 | After any run, a run without arrivals in which responses close, and that goes on as long as it can, ends with nothing active and nothing waiting |
| ResponseTasks.StepsAreQueueSteps | src/agent_lab/gateway/app.py:486-551 | Every step of a response, an answer or a producer, cancelled or not, is a step that the queue's protocol allows at that moment, or none of it |
| ResponseTasks.RunsAreQueueRuns | src/agent_lab/gateway/app.py:486-551 | Every run of the tasks of any number of requests is a run of the queue's protocol, so all invariants of that hold |
| ResponseEnds.StepsUseUp | src/agent_lab/gateway/app.py:486-551 | Every step that a task takes by itself lowers what the tasks have left to do |
| ResponseEnds.SomeTaskGoesOn | src/agent_lab/gateway/app.py:486-551 | Until all requests are over some task can go on by itself: buffer, lock and waiting for each other never deadlock |
| ResponseEnds.CutResponses | src/agent_lab/gateway/app.py:540-551 | A response ends without giving up its place exactly if it is cancelled while it gathers its tasks |
| ResponseEnds.EveryRequestEnds | src/agent_lab/gateway/app.py:532-551 | Left to themselves the tasks stop after finitely many steps, and then every response is over, the lock is free, and the places still counted are exactly those of requests that were cut before they reached the lock |
| ResponseEnds.UncutRequestsLeaveNothing | src/agent_lab/gateway/app.py:532-551 | If no response is cancelled while it gathers, every one closes and the queue is empty |
| ResponseEnds.RequestsCanStrand | src/agent_lab/gateway/app.py:546-550 | A run that ends with a place that nobody will give up |
| ResponseEnds.StreamsBegin | src/agent_lab/gateway/app.py:330-349 | Left alone, a request to stream comes to read from the backend as soon as the slot is free |
| ResponseEnds.ChunksPass | src/agent_lab/gateway/app.py:486-509 | Every chunk is read, put, taken and sent |
| ResponseEnds.EndsPass | src/agent_lab/gateway/app.py:486-551 | After the last the slot is left, the end is sent and the place given up |
| ResponseEnds.CollectingEnds | src/agent_lab/gateway/app.py:362-410 | A request that is not streamed collects its chunks, leaves the slot and answers |
| BackendStream.BackendChunks | src/agent_lab/gateway/app.py:217-261 | Yields exactly the decoded payloads before the first `[DONE]` or bad payload, succeeds only on `[DONE]`, gives every refusal, unreadable refusal, failed connection and early end its error, and the record reflects the last usage and finish reason |
| BackendStream.OutcomeIsUnique | src/agent_lab/gateway/app.py:225-261 | For one behaviour of the backend there is only one such list of chunks and one such end |
| BackendStream.EndsByCause | src/agent_lab/gateway/app.py:235-261 | Only the end mark ends a stream well; bad JSON, an invalid chunk, a broken and a truncated stream each have their error |
| BackendStream.PayloadsOne | src/agent_lab/gateway/app.py:235-239 | A data line carries what stands behind its colon without blanks around it, every other line nothing |
| BackendStream.PayloadsAppend | src/agent_lab/gateway/app.py:235-239 | Lines one after the other carry their payloads one after the other |
| BackendStream.RequestRecord.Note | src/agent_lab/gateway/app.py:244-252 | One chunk updates the record to the last usage and the last finish reason that say something |
| BackendStream.Complete | src/agent_lab/gateway/app.py:362-410 | The assembled answer exactly if the stream ends cleanly after a chunk, else the very error of the stream or "no answer"; a truncated stream never succeeds |
| Chunks.Collect | src/agent_lab/gateway/app.py:386-425 | The assembled answer joins all content and reasoning, keeps all calls in order without their index, and has the last finish reason and usage |
| Chunks.AddChoice | src/agent_lab/gateway/app.py:398-408 | One choice adds its pieces at the end and overrides the finish reason only if it has one |
| Assembly.AssembledInOrder | src/agent_lab/gateway/app.py:386-425 | The answer to two lists of chunks has the content, reasoning and calls of the first and then those of the second, and the last finish reason and usage that say something |
| Assembly.AssembledFromOne | src/agent_lab/gateway/app.py:392-412 | The answer to one choice is what its delta says, with calls that lose their index |
| Assembly.FinishByPosition | src/agent_lab/gateway/app.py:408-408 | The finish reason is that of the last choice that has one |
| Assembly.UsageByPosition | src/agent_lab/gateway/app.py:394-395 | The usage is that of the last chunk that has one |
| Assembly.TypicalChunkIsWellFormed | src/agent_lab/gateway/app.py:431-464 | Chunks of the shape that the backend sends are accepted, whatever they say |
| Chunks.ForwardedChoices | src/agent_lab/gateway/app.py:345-360 | What is streamed has the backend's choices, each made public; a filtered chunk had none |
| Chunks.PublicSaysTheSame | src/agent_lab/gateway/app.py:205-215 | Making choices public changes neither content, reasoning, finish reason nor tool calls |
| Chunks.PublicChunkIsOk | src/agent_lab/gateway/app.py:205-215 | A public chunk is still well formed, names the public model and has no fingerprint |
| Assembly.ForwardedOne | src/agent_lab/gateway/app.py:349-354 | A chunk is held back exactly if it has no choices and reports usage that nobody asked for |
| Assembly.ForwardedAppend | src/agent_lab/gateway/app.py:345-354 | What is forwarded keeps the order of the chunks |
| Assembly.WantedUsageIsForwarded | src/agent_lab/gateway/app.py:349-354 | A client that asked for usage gets every chunk, and the usage of the assembled answer |
| Assembly.PublicKeepsTheRest | src/agent_lab/gateway/app.py:205-215 | Making a chunk public changes its model, object, fingerprint and choices, and no other field |
| Assembly.PublicChoiceKeepsTheRest | src/agent_lab/gateway/app.py:209-214 | Of a choice it changes the field `reasoning_content` of the delta, and no other |
| Chunks.AnswersAgree | src/agent_lab/gateway/app.py:386-425 | Streamed and assembled answers agree for every list of well-formed chunks; under `reasoning_content` if and only if no delta has such text of its own |
| Chunks.StrayReasoningDisagrees | src/agent_lab/gateway/app.py:402-403 | A chunk on which they do not |
| Answers.StreamedIsAssembled | src/agent_lab/gateway/app.py:330-410 | For every behaviour of the backend and every interleaving, the events a client decodes, whose values survive printing, are the forwarded chunks, then the end mark or the error of the assembled answer; the end mark means the same answer, unless the stream ended cleanly without a chunk |
| Answers.CodecsExist | src/agent_lab/gateway/app.py:330-360 | For every stream there are a printer and a reader with which the values that are sent survive |
| Answers.EmptyAnswersDisagree | src/agent_lab/gateway/app.py:409-410 | For a stream of `[DONE]` alone one client gets an error and the other an empty success |
| Chunks.MergedCallsAgree | src/agent_lab/gateway/app.py:404-407 | A client that merges calls by distinct, increasing indices ends with the assembled calls, however it combines pieces |
| Heartbeats.HeartbeatsAreTransparent | src/agent_lab/gateway/app.py:474-513 | For every interleaving a client reads a beginning of the expected events, and all of them once the end is taken; the buffer holds at most 64 entries |
| Heartbeats.ExpectedIsForwarded | src/agent_lab/gateway/app.py:345-360 | Expected are the forwarded chunks in the backend's order, then one terminator |
| Heartbeats.ErrorsByStatus | src/agent_lab/gateway/app.py:342-359 | The error that ends a stream carries the message, and blames the server exactly from status 500 on |
| Heartbeats.NeverStuck | src/agent_lab/gateway/app.py:486-513 | Until the end is taken the producer or the consumer can go on |
| Heartbeats.WorkGoesDown | src/agent_lab/gateway/app.py:486-513 | Each chunk and the end are put once and taken once |
| Silence.TimedRunsAreRuns | src/agent_lab/gateway/app.py:498-509 | Every run against the clock is a run of the consumer, so all that holds of those holds of it |
| Silence.SilenceIsBounded | src/agent_lab/gateway/app.py:498-509 | In every timed run the silence is at most the interval times one more than the longest row of chunks that are not shown |
| Silence.SilenceIsReached | src/agent_lab/gateway/app.py:498-509 | For every list of chunks some timed run is silent for exactly that long |
| Silence.InTimeIffNothingIsFiltered | src/agent_lab/gateway/app.py:350-354 | A byte is sent in every interval of every timed run if and only if no chunk is filtered |
| Silence.OneUsageChunkIsLate | src/agent_lab/gateway/app.py:350-354 | A stream of one unwanted usage chunk has a run that is silent for two intervals |
| Sse.BodyReadsAsPayloads | src/agent_lab/gateway/app.py:342-359 | A client reads exactly the payloads that were sent, in order, wherever keep-alive comments stand |
| KeyFile.Render | src/agent_lab/gateway/keys.py:80-92 | The lines of all entries, joined |
| KeyFile.Load | src/agent_lab/gateway/keys.py:54-77 | The entries of the file, whatever its layout; none if it is absent, an error if it cannot be read or an entry is invalid, another one if it is not UTF-8 |
| KeyFile.LoadedIsValid | src/agent_lab/gateway/keys.py:64-77 | Whatever the file holds, a list that loads has valid and distinct names and valid hashes |
| KeyFile.ReadableIsCovered | src/agent_lab/gateway/keys.py:54-63 | Text that loads is in the layout that the reader covers |
| KeyFile.RoundTrip | src/agent_lab/gateway/keys.py:80-92 | Loading what is printed gives the same entries in order if and only if every date can stand between quotes as it is |
| KeyFile.UnplainDoesNotRoundTrip | src/agent_lab/gateway/keys.py:86-91 | The first date that needs escaping spoils the file or is read as another, whatever follows |
| KeyFile.LinesKeepWhatWasSet | src/agent_lab/gateway/keys.py:58-63 | No later line changes a table or a value that was read |
| KeyCommands.KeysFile.Create | src/agent_lab/gateway/keys.py:124-134 | Replaces the file by one with the key added, or leaves it and names the first error |
| KeyCommands.KeysFile.Revoke | src/agent_lab/gateway/keys.py:137-143 | Replaces the file by one without the key, or leaves it and names the error |
| KeyCommands.WithoutRemoves | src/agent_lab/gateway/keys.py:140-142 | The filter keeps exactly the other names, and keeps the length exactly if the name is not there |
| KeyCommands.CommandsSucceed | src/agent_lab/gateway/keys.py:124-143 | A key can be created exactly under a good name that no entry has, and revoked exactly if one has it; then the list has that entry more or that name less |
| KeyCommands.CommandStoresItsList | src/agent_lab/gateway/keys.py:95-104 | A successful command's file loads as the intended list if and only if no date in it needs escaping |
| KeyCommands.EditedDateSpoilsTheFile | src/agent_lab/gateway/keys.py:86-91 | A file with a hand-edited date that loads, after which creating a key does not store what was meant |
| KeyCommands.RunsKeepTheList | src/agent_lab/gateway/keys.py:124-143 | Over any run of commands the file stays readable and in the layout, with distinct names |
| KeyCommands.OthersKeepTheirAnswer | src/agent_lab/gateway/keys.py:171-180 | A command changes the answer to a hash only by creating that hash or revoking its name |
| KeyCommands.AnswerStays | src/agent_lab/gateway/keys.py:171-180 | Over any run the answer to a hash stays until its name is revoked or the hash is created |
| KeyCommands.CreatedUntilRevoked | src/agent_lab/gateway/keys.py:124-134 | A created key answers with its own name until that name is revoked |
| KeyCommands.RevokedIsRefused | src/agent_lab/gateway/keys.py:137-143 | A revoked key is refused until its hash is created again, if no other name has the hash |
| KeyCommands.BrokenStaysBroken | src/agent_lab/gateway/keys.py:162-168 | A file that cannot be loaded is never touched by a command and accepts no key |
| KeyStore.Store.Refresh | src/agent_lab/gateway/keys.py:154-169 | The cached list is that of a version within the call; if the stamp was known it is the version current at the look, even if an earlier load read a newer one than its stamp; if the file is not UTF-8 the call raises and the cache stays |
| KeyStore.Store.Check | src/agent_lab/gateway/keys.py:171-180 | Every check answers as a full scan of one version of the file within the call, with writers before and between stat and load, or raises because that version is not UTF-8 |
| Toml.TomlStringRoundTrips | src/agent_lab/registry.py:209-211 | A printed string reads back as itself if it has no control character, and cannot be read if it has one |
| Toml.PlainReadsBack | src/agent_lab/gateway/keys.py:86-91 | Between quotes without escaping exactly the plain strings are read back |
| Sizes.TenthsReadBack | src/agent_lab/config.py:41-46 | The text for a number of tenths of a GB parses as that size, rounded down to bytes |
| Sizes.DecimalReadsBack | src/agent_lab/registry.py:227-228 | A printed number reads back as itself |
| Sizes.ValueAppend | src/agent_lab/config.py:41-46 | Numbers are read in base ten from left to right |
| Sizes.WholeReadsBack | src/agent_lab/config.py:41-46 | A whole number with a unit is that many units |
| Sizes.FractionReadsBack | src/agent_lab/config.py:41-46 | With decimals it is the fraction of the unit, rounded down |
| Sizes.UnitsByName | src/agent_lab/config.py:19-29 | The units are binary, in upper or lower case; others are refused |
| Sizes.TenthsForIsLeast | src/agent_lab/registry.py:198-206 | The size chosen is the least in tenths of a GB that covers the total |
| Sizes.DiskSpaceFor | src/agent_lab/registry.py:198-206 | The loop ends for any estimate, repairs one that is too low, and its text parses as a size that covers the total |
| ModelFiles.NamesStayInside | src/agent_lab/registry.py:79-87 | An accepted name leads below the model's directory and not into its download state |
| ModelFiles.AcceptedNamesGoDown | src/agent_lab/registry.py:79-87 | A name is accepted exactly if it has no backslash, leads down part by part from any directory, and its first part is not reserved |
| ModelFiles.NamesDoNotCollide | src/agent_lab/registry.py:79-87 | Different accepted names lead to different files |
| Registry.ParseFiles | src/agent_lab/registry.py:90-124 | No problem exactly if the list is not empty and every item is good with distinct names; then the files are the items |
| Registry.ParseItem | src/agent_lab/registry.py:96-123 | One item yields its file, and a problem exactly if a field is bad, unknown, or the name was seen |
| Registry.ReadTable | src/agent_lab/registry.py:138-152 | The problems name exactly the bad, missing and unknown fields of a table |
| Registry.ParseRegistry | src/agent_lab/registry.py:127-164 | Accepted if and only if every table is good, covers its files and has its own id; the result is their map; a refusal names every strange key and every bad, missing, unknown and repeated field of every table |
| RegistryText.RenderEntry | src/agent_lab/registry.py:214-231 | The text of an entry in the registry's layout |
| RegistryText.ReadsEntry | src/agent_lab/registry.py:214-231 | A printed entry reads back as its table, followed by the rest, or not at all if a string has a control character |
| RegistryText.ReadsFileText | src/agent_lab/registry.py:243-244 | A whole printed registry reads back as its tables in order, or not at all |
| RegistryFile.TableReadsBack | src/agent_lab/registry.py:214-231 | The table printed for an entry is accepted if and only if the entry is valid, and means the entry with its disk space recomputed |
| RegistryFile.FileReadsBack | src/agent_lab/registry.py:243-244 | A printed registry loads as the same entries, normalised, if and only if all are valid and printable |
| RegistryFile.RegistryPath.WriteEntry | src/agent_lab/registry.py:234-247 | Succeeds exactly if all entries can be printed and read back; then the file lists the upserted entries in id order and loads as them; otherwise it is untouched |
| RegistryFile.WriteSucceeds | src/agent_lab/registry.py:234-247 | A write succeeds if and only if the file loads or is absent, the new entry is valid, and no string that is printed has a control character |
| DiskSpace.PrintedSpaceCovers | src/agent_lab/registry.py:198-223 | The printed disk space is the least number of tenths of a GB that covers what a pull onto an empty disk counts |
| DiskSpace.LostFromNothing | src/agent_lab/pull.py:375-380 | That is every byte of every file |
| DiskSpace.AcceptedSpaceCovers | src/agent_lab/registry.py:153-160 | A table with good fields is refused for its disk space exactly if that is less than a pull counts |
| DiskSpace.LoadedEntriesCover | src/agent_lab/registry.py:127-164 | Every entry of a registry that loads declares at least what a pull counts |
| DiskSpace.TotalSizeAppend | src/agent_lab/registry.py:57-59 | The total of two lists of files is the sum of their totals |
| HandWrittenEntry.HandWrittenBlocksWrites | src/agent_lab/registry.py:234-247 | Every valid entry can be written by hand so that it loads with a line end in its description, and then no other entry can be written |
| HandWrittenEntry.SomeEntryIsValid | src/agent_lab/registry.py:61-87 | There is such an entry |
| RegistryFile.WriteIsIdempotent | src/agent_lab/registry.py:234-247 | Writing the same entry again succeeds and leaves the very same file |
| RegistryFile.WriteKeepsTheOthers | src/agent_lab/registry.py:242-244 | All ids stay; another entry is unchanged if and only if its disk space was the one that printing computes |
| HandWrittenEntry.DeclaredSpaceIsLost | src/agent_lab/registry.py:216-223 | Of every valid entry there is a version whose declared space is not what comes back |
| Order.Sorted | src/agent_lab/registry.py:243-243 | The elements of a set in ascending order of code points |
| Order.BelowByPosition | src/agent_lab/registry.py:243-243 | The first character in which two strings differ decides their order, or that only one goes on |
| Section.Section.Integer | src/agent_lab/config.py:135-146 | Reads the value and records a problem exactly if it is missing, not an integer or out of bounds |
| Section.Section.Number | src/agent_lab/config.py:148-157 | The same for numbers, refusing infinities and NaN |
| Section.Section.Text | src/agent_lab/config.py:159-168 | The same for strings that must not be empty and must pass a check |
| Section.Section.Flag | src/agent_lab/config.py:170-177 | The same for booleans |
| Section.Section.Size | src/agent_lab/config.py:179-193 | The same for sizes above zero |
| Section.Section.Finish | src/agent_lab/config.py:195-197 | Afterwards the errors name exactly the bad, missing and unknown fields of the section |
| Section.HostsByLabel | src/agent_lab/config.py:31-31 | A host name is accepted exactly if it is two or more labels joined by points, the last of letters only |
| Section.RepositoriesByHalf | src/agent_lab/registry.py:24-24 | A repository is accepted exactly if it is a good owner and a good name joined by a slash |
| Config.ParseProfile | src/agent_lab/config.py:218-308 | Accepts exactly the files with no bad field and no conflict; a refusal names exactly the bad fields, or if there is none the conflicts |
| Config.AcceptedIsSound | src/agent_lab/config.py:229-294 | Acceptance implies every bound and every rule between fields |
| ProfileFile.SoundIsAccepted | src/agent_lab/config.py:218-308 | Every sound profile has a file, written key by key, that is accepted and means it |
| ProfileFile.SoundIffAccepted | src/agent_lab/config.py:218-308 | The sound profiles are exactly those that some accepted file means |
| ProfileFile.AcceptedHasTheKeys | src/agent_lab/config.py:195-308 | An accepted file has every section and every field, and no other |
| Translate.LimitIsLargest | src/agent_lab/gateway/translate.py:327-340 | Under a sound profile the limit refuses exactly the prompts that leave too little room; otherwise it is the largest number allowed, and at least the smaller of the request and the minimum |
| Translate.AcceptedProfileLimits | src/agent_lab/gateway/translate.py:327-340 | So it does for every profile file that is accepted, with the same lower bound |
| Translate.CheckContent | src/agent_lab/gateway/translate.py:126-140 | Refuses exactly the contents that are neither absent, nor text, nor lists of text parts |
| Translate.CheckToolCalls | src/agent_lab/gateway/translate.py:143-166 | The first call that is wrong decides: no function name or arguments that are not JSON text are refused, arguments nested too deep raise |
| Translate.Messages | src/agent_lab/gateway/translate.py:169-186 | The first fault in order, or all messages with "developer" renamed |
| Translate.Tools | src/agent_lab/gateway/translate.py:189-206 | Refuses exactly the lists with a tool that is not a named function; none are offered when the choice is "none" |
| Translate.CopyFields | src/agent_lab/gateway/translate.py:261-289 | The first fault among the fields that are passed on, or exactly those that were given, unchanged |
| Translate.Prepare | src/agent_lab/gateway/translate.py:226-324 | The first fault in the order of the checks, or the request as specified field by field |
| Requests.FirstBadFieldDecides | src/agent_lab/gateway/translate.py:226-299 | A request is accepted exactly if each of its fields is what the API asks for, bound by bound; otherwise the first that is not, in the order of the checks, is named |
| Requests.SentKeyByKey | src/agent_lab/gateway/translate.py:257-311 | What the backend gets under every key: the client's value, or the profile's for the mode, or nothing |
| Requests.EffortsByName | src/agent_lab/gateway/translate.py:209-223 | Every effort by its name: whether it thinks, and which template arguments it sets |
| Requests.TokensByName | src/agent_lab/gateway/translate.py:291-299 | `max_completion_tokens` wins over `max_tokens` |
| Requests.MessagesByName | src/agent_lab/gateway/translate.py:169-186 | A message goes on as it came, but a developer becomes the system |
| Requests.RulesByName | src/agent_lab/gateway/server.py:37-60 | The rules are those of the profile, field by field |
| Crashes.PrepareCrashes | src/agent_lab/gateway/translate.py:118-289 | An exception that is not an ApiError if and only if the first message that is not good has an unhashable role or arguments nested too deep, or the first number or bias entry that is not good is an integer too large for a float |
| Crashes.RoleCanCrash | src/agent_lab/gateway/translate.py:177-178 | The request with the role `[]` |
| Crashes.ArgumentsCanCrash | src/agent_lab/gateway/translate.py:160-166 | A request with good messages and arguments nested too deep |
| Crashes.NumberCanCrash | src/agent_lab/gateway/translate.py:122-123 | A request with a temperature of 2^1024 |
| Crashes.AcceptanceIgnoresOrder | src/agent_lab/gateway/translate.py:283-289 | Whether a request is accepted does not depend on the order of its keys |
| Translate.OnlyKnownFieldsAreSent | src/agent_lab/gateway/translate.py:257-311 | Nothing but known fields reaches the backend, whatever the client sent |
| Translate.PreparedFieldsAreSent | src/agent_lab/gateway/translate.py:257-311 | The backend's own model name, the checked messages and tools, the template arguments, and always a stream |
| Translate.ClientValuesWin | src/agent_lab/gateway/translate.py:304-306 | A sampling field is the client's if given, otherwise the recommended one for the mode |
| Translate.SentNumbersAreInRange | src/agent_lab/gateway/translate.py:261-306 | Under a sound profile every number field that reaches the backend is in its range, and temperature, top_p and a non-negative top_k are always there |
| Translate.SwitchAgrees | src/agent_lab/gateway/translate.py:209-223 | The switch that is counted equals `thinking` if and only if no effort level overwrites it |
| Translate.EffortCanCoverTheSwitch | src/agent_lab/gateway/translate.py:220-223 | Rules and an effort for which it does not |
| Translate.CountedIsRendered | src/agent_lab/gateway/translate.py:301-324 | The backend's default arguments overlaid with the forwarded ones are the arguments of the count, with the switch as reported and the same messages and tools |
| Tokens.NormalizeMessages | src/agent_lab/gateway/tokens.py:32-50 | Raises exactly if one message cannot be normalised; otherwise normalises each, in order |
| Tokens.AcceptedIsNormalized | src/agent_lab/gateway/tokens.py:32-50 | An accepted message is always normalised: its content becomes the same text as a string, its calls are decoded, its role and all other fields stay |
| Tokens.TextsInOrder | src/agent_lab/gateway/tokens.py:36-42 | The text of a content is its string, or the texts of its parts one after the other |
| Tokens.DecodingReplacesArguments | src/agent_lab/gateway/tokens.py:46-49 | Decoding a call replaces its arguments by their JSON value and nothing else |
| Tokens.PreparedIsNormalized | src/agent_lab/gateway/tokens.py:32-50 | Counting never raises on messages that `prepare` let through |
| LogStream.LogStream.Write | src/agent_lab/backend/launch.py:90-97 | Logs the lines that are now complete and not blank, right-stripped, and keeps the rest |
| LogStream.LogStream.Flush | src/agent_lab/backend/launch.py:99-103 | Logs what is left unless it is blank, and empties the buffer |
| LogStream.OneRecord | src/agent_lab/backend/launch.py:90-103 | A line that is not blank is logged up to its last character that is no blank |
| LogStream.CutDoesNotMatter | src/agent_lab/backend/launch.py:90-103 | However a text is cut into writes, one flush leaves exactly its non-blank lines logged, right-stripped and in order |

## Left out

- The command line, `doctor`, `macos`, `gpulimit`, `toolchain`, `paths` and the shell scripts: single-branch code and messages.
- `serve.py`: sequential glue. The profiles of backend and gateway are not compared again when a start finds one already running, so their agreement is not kept across concurrent serves.
- HTTP, ASGI, uvicorn, httpx, `tomllib`, `json`, `hashlib`, transformers and mlx-lm: parameters, or the small grammar that the program prints.
- TOML beyond that grammar: how a key or registry file in another layout is read, only what it means.
- `lock_entry` and the Hugging Face metadata: network.
- Progress lines, rate limiting, log tails, rotation, memory figures and the memory guard: presentation and measurements.
- Constant-time comparison, file modes and the randomness of keys: not functional correctness.
- The JSON envelope of the assembled answer (`id`, `created`, roles) and its HTTP response.
- The text of error messages; what they name is modelled for profiles, registries and requests.
- JSON objects changed in place (`public_chunk`, `normalize_messages` on its deep copy, `prepare`): modelled as values, so aliasing between a chunk and its public form is not captured.
- Registry.ParseFiles: places every problem at the list of files, not at the item's index.
- KeyStore.Store.Check: only FileNotFoundError can come from looking at the stamp; other errors of `stat` end the request.
- Tokens.NormalizeMessages: does not model the recursion limit of `copy.deepcopy`, which the gateway reports like any other failure of the chat template.
- ResponseTasks.StepsAreQueueSteps: an answer that is not streamed runs the chunks itself; its cancellation is passed on as to a producer task, in one step more than the code takes.
