# ezLiveStreaming: a Dafny model of its control plane

This project models the control plane of ezLiveStreaming, a live transcoding service, and proves
what it keeps over whole runs. All files verify together with `dafny verify dfyconfig.toml`.

The system has three layers, and so has the model.

**Placing jobs.** The API server stores job records and sends them to SQS. The scheduler moves
messages into the `queued_jobs` list, and on every tick takes one and launches, stops, discards or
re-buffers it. Workers launch transcoder processes, watch them and report. `SchedulerSpec`,
`ApiServer` and `WorkerSpec` say what each handler does as a function of the tables or of the
worker's state; the classes in `SchedulerApp`, `ApiServer`, `RedisClient` and `WorkerApp` are the
handlers themselves, which change those tables and lists in place and are proved equal to the
functions. `Cluster` puts them together: one state, fifteen kinds of step, arbitrary runs. Requests may
not arrive, answers and reports may be lost or doubled, messages may be received twice and in any
order, processes may die and workers may exit at any moment.

Messages carry whole job records, which later overwrite the stored ones. So what holds of records
has to hold of messages in flight as well. `ClusterRecords.EverywhereKept` proves this once, for any
predicates that survive single edits; state, stats, time and byte accounting are instances of it.

**The worker's lists.** `WorkerApp` keeps the free RTMP ports and the running entries, and
`checkJobStatus` deletes from the list it walks, one element behind its cursor. `WorkerProofs` shows
that this is a stable filter, that reports name every entry exactly once, and when the port pool
stays a partition.

**The transcoder.** `Uploader` models the upload list, which is appended to while it is walked;
`Playlists` the two HLS playlist rewriters; `PortPlan` the UDP ports between ffmpeg, the packager and
ffprobe; `Validator` the in-place normaliser of job specs.

Where a promise does not hold of the code, the model keeps the code, and the statement says exactly
when the promise holds, with an input for which it fails:

- the port pool stays a partition exactly when every create finds a free port and no process is signalled twice;
- no two jobs send to the same UDP port exactly when every launch finds its ports free, which it may not after a
  job has been reaped, or when the transcoder adds an output the worker did not count; AV1 jobs can meet on the
  ffprobe port alone;
- the two ways to cut out a rendition name agree exactly when the directory name is not empty;
- the playlist names the stored segment exactly when no underscore follows the segment prefix;
- the master playlist is filtered correctly exactly when it is a header followed by pairs, up to one
  coincidence that is spelled out, and a second removal changes nothing exactly when no kept line ends in a
  second carriage return;
- a stop is confirmed exactly when its worker knows and signals the job and its answer arrives, and a stopped
  job stays stopped exactly until one of four steps wakes it, a late report among them;
- the limit on the video bitrate holds exactly of numbers, and NaN passes it; an empty rate is not rejected but
  crashes the validator, exactly when it is reached.

## Assumptions

- One scheduler; every handler and every timer body is atomic; a launch request and the load update
  after it are one step; Redis calls succeed.
- One monotone clock for all servers, read once for each report, sweep or handler.
- The answer to a registration arrives, so a worker process has one id.
- Job ids and worker ids are fresh, and so are process ids on one worker.
- Environment outcomes are inputs of a step: whether SQS takes or deletes a message, how far a request to a worker
  gets, whether a process starts, accepts SIGTERM or answers, whether an upload succeeds, which
  worker the random choice selects.

Where code and documentation differ, the model follows the code: README.md:411 gives 0 to 10 as the
range of the segment duration, the validator allows up to 30; a comment in the validator promises a
default fragment of 2 seconds, the code sets 1; a stop the worker answers with "not found" is put back
into the queue, which the comments in the scheduler do not say.

## Model

| member | source | states |
|---|---|---|
| `ClusterRecords.EverywhereKept` | scheduler/scheduler.go:113-145 | Any three predicates on stored records, on messages in SQS or queued_jobs, and on bandwidth readings, that survive the edits the servers make to one record survive every step of the protocol, although a polled message and a launch reply overwrite the stored row with an old snapshot |
| `ClusterRecords.RecordsAgreeStep` | scheduler/scheduler.go:326-378 | Each step keeps the agreement of state and stats, of the stop flag and the state of a message, and of the time totals, in every row and every message |
| `ClusterRecords.RecordsInEveryRun` | scheduler/scheduler.go:912-954 | In every run, for every row and every message in SQS or queued_jobs: streaming exactly when bandwidth exceeds 10 kbps, stopped implies zero bandwidth and empty CPU, a message that is not a stop is created or stopped, 1000 times the active seconds is at most last report minus creation, and active seconds never exceed up seconds |
| `ClusterRecords.AccountedTime` | scheduler/scheduler.go:931-954 | One stats entry, with two floor divisions by 1000, keeps 1000 * active seconds <= last report - creation, and makes up seconds exactly the floor of that difference |
| `ClusterRecords.AccountedBytes` | scheduler/scheduler.go:939-945 | One stats entry with a reading between 0 and cap keeps 8 * bytes <= cap * (last report - creation), with truncation at each report |
| `ClusterRecords.BytesInEveryRun` | scheduler/scheduler.go:931-954 | In every run in which no reading leaves [0, cap] kbps, no record claims more than cap * (last report - creation) / 8 bytes |
| `ClusterLoads.ScheduleCounts` | scheduler/scheduler.go:385-470 | A scheduling step adds one load entry for (worker, job) exactly when it launches that job there, and none otherwise |
| `ClusterLoads.StoppedCounts` | scheduler/scheduler.go:915-929 | The stopped jobs of a report remove as many load entries of (worker, job) as the report names, down to zero |
| `ClusterLoads.CheckCounts` | worker/app/worker_app.go:519-624 | A worker check divides the running entries of a job into those kept and those reported as stopped, losing and doubling none |
| `ClusterLoads.LoadBoundedStep` | scheduler/scheduler.go:178-265 | Each step keeps: load entries of (worker, job) <= running entries + stop reports in flight + stop reports lost |
| `ClusterLoads.LoadReturnsWithJob` | scheduler/scheduler.go:178-265 | That bound holds in every run for every worker that has not exited and every job id, through failed launches, relaunches of one id, duplicated messages and duplicated or lost reports |
| `ClusterCover.CoveredStep` | scheduler/scheduler.go:178-265 | Each step keeps the bound the other way: running entries + stop reports in flight + lost <= load entries + launches not counted + stops in report arrivals that were not the last |
| `ClusterCover.LoadCoversRunning` | worker/app/worker_app.go:378-409 | That bound holds in every run for every worker that has not exited and every job id |
| `ClusterCover.LoadExact` | scheduler/scheduler.go:178-265 | In every run, when no launch of the job on the worker failed or lost its answer and no stop of it was reported twice, its load entries are exactly its running entries and its stops in flight or lost |
| `ClusterCapacity.CapacityStep` | scheduler/scheduler.go:192-263 | Each step keeps the load totals equal to the sums over the load entries, and the entries of a registered worker within its capacity |
| `ClusterCapacity.CapacityInEveryRun` | scheduler/scheduler.go:411-441 | In every run CpuLoad and BandwidthLoad are the sums over Jobs and not negative, and a registered worker has at most ceil(CpuCapacity/1000) and at most ceil(BandwidthCapacity/20000) entries |
| `ClusterMessages.ConservedStep` | scheduler/scheduler.go:113-145 | Each step keeps, for every job id and kind of message: accepted by SQS + received twice == in SQS + in queued_jobs + settled |
| `ClusterMessages.NoCreateLost` | scheduler/scheduler.go:385-470 | In every run that equation holds for creates and resumes with settled meaning launched on a worker, so none is ever lost |
| `ClusterMessages.WhatSettlesAMessage` | scheduler/scheduler.go:397-468 | What each way of leaving queued_jobs does to the row, the load, the worker and the queue; a stop is discarded only with no assigned worker or one that is gone, and a create or resume never is |
| `ClusterMessages.QueueStep` | scheduler/scheduler.go:992-1003 | A message with d messages before it has d - 1 before it after a scheduling step, d after any other step, and is unchanged |
| `ClusterMessages.BoundedWaiting` | scheduler/scheduler.go:385-470 | Over any run, the message at depth d is at the front after exactly d scheduling steps on a non-empty queue, whatever happens to the others |
| `ClusterConsequences.IdleWorkerHasNoLoad` | scheduler/scheduler.go:233-263 | In every run a worker that runs nothing and has no stop report in flight or lost has no load entry and zero load |
| `ClusterService.RequestSent` | api_server/api_server_main.go:487-581 | An accepted create, stop or resume stores its record and puts exactly that record at the end of SQS, stop flag set for a stop and clear for the others, all other fields those of the row; messages of its kind sent grow by one |
| `ClusterService.CapacityIsFreeSlot` | scheduler/scheduler.go:429-441 | In every run a registered worker passes the capacity check if and only if 1000 times its entries is below its CPU capacity and 20000 times them below its bandwidth capacity, that is, it has fewer entries than slots |
| `ClusterService.FreeSlotIsUsed` | scheduler/scheduler.go:397-447 | In every run a create or resume at the front is launched, as a running row with one more load entry, if and only if the picked worker is registered with fewer entries than slots, is alive and answers, and the process starts; otherwise it goes to the back and nothing else changes |
| `ClusterService.ReportArrives` | scheduler/scheduler.go:900-960 | In every run an arriving report leaves the row of a job it does not name alone, stops one it names as stopped only, and makes one with stats read as its last entry |
| `ClusterService.CrashIsSeen` | worker/app/worker_app.go:519-624 | In every run, when all processes of a job on a worker have died, the next check and the arrival of its report make the job stopped with zero bandwidth and empty CPU |
| `SchedulerApp.Scheduler.CheckWorkerHeartbeat` | scheduler/scheduler.go:713-752 | Removing expired workers one after the other is removing all of them at once; those that stay are exactly those heard from within ten intervals, unchanged |
| `SchedulerApp.RemovedAgain` | scheduler/scheduler.go:738-750 | Removing a set of workers and then one more is removing the union, although each removal edits the same job table |
| `ClusterStops.JobsCreatedAlways` | api_server/api_server_main.go:113-172 | In every run, every row and every message in SQS or queued_jobs belongs to a job the API server created |
| `ClusterStops.StoppedUntilWoken` | scheduler/scheduler.go:931-954 | A stopped job stays stopped in a step if and only if the step is none of four: a deletion, a poll of an older record of it, a launch of it (a worker with room is picked, is alive and answers, and the process starts), or a report with stats of it |
| `ClusterStops.StoppedInEveryRun` | scheduler/scheduler.go:931-954 | From any reachable state a stopped job stays stopped throughout a run if and only if no step of the run is one of those four |
| `ClusterExamples.LateReportExample` | scheduler/scheduler.go:931-954 | A run from the start in which a job is launched and reported, its stop is confirmed, and the stats report already on its way then makes it streaming again |
| `ClusterExamples.DiscardedStopExample` | scheduler/scheduler.go:450-458 | A run from the start in which the stop of a waiting job is discarded because no worker is assigned, and the job runs once a worker registers |
| `ClusterExamples.RebufferedStopExample` | scheduler/scheduler.go:464-467 | A run from the start in which SQS delivers a stop twice; the second copy is put back in every further scheduling step, however its request fares |
| `ClusterExamples.ResumeExample` | api_server/api_server_main.go:534-581 | A run from the start in which a job is created, launched, stopped and resumed, and runs again as a new process |
| `ClusterConsequences.SweepExact` | scheduler/scheduler.go:713-752 | The same for one worker and one job: which workers stay registered, and which rows change, to what; loads and queue are untouched |
| `ClusterConsequences.StopConfirmedExactly` | scheduler/scheduler.go:450-467 | A stop is confirmed if and only if its assigned worker is registered, alive and its answer arrives, the worker knows the job in its map and its running list, and the process takes the signal; when only the answer is lost the process is signalled all the same |
| `ClusterConsequences.NeverSuspended` | scheduler/scheduler.go:728-736 | No step ever stores a worker as unavailable: from the start on, every registered worker is an available one |
| `SchedulerApp.Scheduler.PollJobQueue` | scheduler/scheduler.go:113-145 | A message that is no stop is stamped with the time and overwrites its row, a stop changes no row; the message is pushed before it is deleted from SQS |
| `SchedulerApp.Scheduler.AddNewJobLoad` | scheduler/scheduler.go:178-217 | Adds the entry and its load, and stores the worker as loaded |
| `SchedulerApp.Scheduler.UpdateWorkerLoad` | scheduler/scheduler.go:219-265 | Removes the first entry of the job with its load, and reports whether there was one; otherwise changes nothing |
| `SchedulerApp.Scheduler.SendJobToWorker` | scheduler/scheduler.go:267-383 | Stores the worker's copy as running and adds its load, or stores the message as stopped without a worker, exactly when the worker confirmed; otherwise changes nothing and asks for a retry |
| `SchedulerApp.Scheduler.GetAllAvailableWorkers` | scheduler/scheduler.go:642-668 | Lists exactly the workers that are not marked unavailable |
| `SchedulerApp.Scheduler.ScheduleOneJob` | scheduler/scheduler.go:385-470 | The step function that the run theorems are about: pops the front and launches, stops, discards or re-buffers it |
| `SchedulerApp.Scheduler.PlaceJob` | scheduler/scheduler.go:405-447 | With a worker picked, a create or resume is stored as running there with one more load entry exactly when both loads are below capacity and the worker confirms; otherwise it is pushed back and no row changes |
| `SchedulerApp.Scheduler.StopAssigned` | scheduler/scheduler.go:449-468 | A stop without a registered assigned worker is dropped, a confirmed one is stored, any other is buffered again |
| `SchedulerApp.Scheduler.HandleStoppedJob` | scheduler/scheduler.go:915-929 | One stopped job of a report: its row, if there is one, becomes stopped with zero bandwidth and empty CPU and keeps its other fields, no other row changes, and the load is reduced either way |
| `SchedulerApp.Scheduler.HandleJobStats` | scheduler/scheduler.go:932-957 | One stats entry: streaming above 10 kbps and running otherwise, the readings and the report time; up seconds are the whole seconds since creation, and between reports the bytes grow by the whole eighth of milliseconds times kbps and, above 10 kbps, the active seconds by the whole seconds |
| `SchedulerMeaning.AccountedUpdates` | scheduler/scheduler.go:931-954 | The specified record is such an update of the old one |
| `SchedulerMeaning.ReportRow` | scheduler/scheduler.go:900-960 | What a whole report makes of each row, for any order and repetition of its entries |
| `SchedulerApp.Scheduler.HandleJobStatus` | scheduler/scheduler.go:900-960 | A whole report: a row it does not name is unchanged, one it names as stopped only is stopped with zero bandwidth and empty CPU, one with stats reads as its last entry |
| `SchedulerApp.Scheduler.StopWorkerJobs` | scheduler/scheduler.go:573-603 | Halts exactly the rows named in the load of the worker |
| `SchedulerApp.Scheduler.DropWorker` | scheduler/scheduler.go:738-750 | Halts the rows named in the load of the worker and removes the worker |
| `SchedulerApp.HaltListedRemoves` | scheduler/scheduler.go:573-603 | Halting the entries of a load list one by one gives the rows that removing the worker calls for |
| `SchedulerApp.Scheduler.CreateWorker` | scheduler/scheduler.go:524-548 | Registers a worker as idle with the time of registration as its heartbeat |
| `SchedulerApp.Scheduler.HandleHeartbeat` | scheduler/scheduler.go:862-884 | Stores the time of the heartbeat in the row of a known worker, and refuses an unknown one |
| `RedisClient.Redis.QPushStruct` | redis_client/redis_client.go:152-160 | LPUSH appends to the queue |
| `RedisClient.Redis.QFront` | redis_client/redis_client.go:167-175 | LRANGE -1 -1 reads the element that QPop then removes |
| `RedisClient.Redis.QPop` | redis_client/redis_client.go:177-185 | RPOP removes the oldest element, or fails on an empty list |
| `RedisClient.Redis.QLen` | redis_client/redis_client.go:187-196 | The length of the queue |
| `ApiServer.ApiServer.CreateJob` | api_server/api_server_main.go:113-172 | Stores a new created job with its creation time, and sends exactly that record |
| `ApiServer.ApiServer.StopJob` | api_server/api_server_main.go:487-533 | Refused, with nothing changed, exactly for unknown and stopped jobs; otherwise the row with the stop flag set is stored and put into SQS |
| `ApiServer.ApiServer.ResumeJob` | api_server/api_server_main.go:534-581 | Refused, with nothing changed, exactly for unknown, running and streaming jobs; otherwise the row with the stop flag cleared is stored and put into SQS |
| `ApiServer.ApiServer.DeleteJob` | api_server/api_server_main.go:582-615 | Deletes the row exactly of a stopped job |
| `WorkerApp.WorkerApp.constructor` | worker/app/worker_app.go:770-775 | The pool starts as 1935..1949 in order |
| `WorkerApp.WorkerApp.AllocateRtmpIngestPort` | worker/app/worker_app.go:287-298 | Takes the port at the front, -1 when there is none |
| `WorkerApp.WorkerApp.ReleaseRtmpPort` | worker/app/worker_app.go:301-304 | Puts the port at the back |
| `WorkerApp.WorkerApp.CreateIngestUrl` | worker/app/worker_app.go:306-324 | Stores the job with the allocated port; with no free port it keeps the port it arrived with |
| `WorkerApp.WorkerApp.LaunchJob` | worker/app/worker_app.go:326-410 | Appends the running entry, whose UDP base lies above the renditions of all running entries, even when the process fails at once |
| `WorkerApp.WorkerApp.HandlePost` | worker/app/worker_app.go:166-201 | A create request appends a running entry of the job with the first free port, or the port it came with when none is free; on success the job is in the map and is the reply, on failure it is not in the map while entry and port stay |
| `WorkerApp.WorkerApp.StopJob` | worker/app/worker_app.go:83-129 | Signals the first running entry of the job; only on success is its port released and its map entry deleted |
| `WorkerApp.WorkerApp.RemoveStoppedJobs` | worker/app/worker_app.go:519-585 | The loop that deletes the element behind its cursor equals a stable filter: the list keeps exactly the entries that answer, in order, and the stopped ids are those of the others, in order |
| `WorkerApp.WorkerApp.CheckJobStatus` | worker/app/worker_app.go:519-624 | The check as a whole: the filtered list, and a report in the name of the worker with one stats entry per job still running, holding the cached readings of that job or zero |
| `WorkerProofs.ReportCoversRunning` | worker/app/worker_app.go:519-624 | Stopped jobs and stats together list every entry that was running exactly once, and the stats follow the list that remains |
| `WorkerProofs.StepKeepsPartition` | worker/app/worker_app.go:287-324 | One operation keeps the fifteen ports divided exactly into free, held and leaked, if and only if a create found a free port and a stop signals a process for the first time |
| `WorkerProofs.PartitionOverRuns` | worker/app/worker_app.go:83-129 | Over any sequence of creates, failed launches, stops and checks the division holds at every point if and only if every operation was of that kind |
| `WorkerProofs.PortsExclusive` | worker/app/worker_app.go:287-324 | In such a run no two unreleased entries share a port, none holds a free one, and all ports are among 1935..1949 |
| `WorkerProofs.DoubleSigtermExample` | worker/app/worker_app.go:83-129 | A stop, a resume and a stop before the first process is reaped put the same port into the pool twice |
| `WorkerProofs.PortsReusedInOrder` | worker/app/worker_app.go:287-304 | A free port at depth d is handed out by the (d+1)-th create after it and no sooner, so a released port follows every port that was free before it |
| `UploaderApp.Uploader.AddToUploadList` | worker/transcoder/worker_transcoder.go:533-562 | Init segments wait in a table under their rendition, everything else goes to the end of the list |
| `UploaderApp.Uploader.UploadOneFile` | worker/transcoder/worker_transcoder.go:307-367 | On success of a file named seg_1., seg_00000. or segment_1. whose rendition has an init segment waiting, that init segment goes to the end of the list |
| `UploaderApp.Uploader.UploadFiles` | worker/transcoder/worker_transcoder.go:247-305 | The loop that removes behind its cursor and appends to the list it walks terminates, by attempts left and then elements left, and equals the pass function |
| `UploadProofs.OnePassConserves` | worker/transcoder/worker_transcoder.go:247-305 | For every file in one pass: listed before + init segments queued == stored + dropped + listed after; and the retry counts afterwards are those before plus one for each failure |
| `UploadProofs.OnePassAttempts` | worker/transcoder/worker_transcoder.go:255-262 | A pass makes at most five attempts, and leaves items unvisited only after exactly five |
| `UploadFates.EveryItemHasItsFate` | worker/transcoder/worker_transcoder.go:247-305 | In one pass every item listed at the start, however many equal ones there are, is stored with retries left, or dropped with none left, or listed with its retry count raised by its failures, each at its own places in the log and in the new list; failures are logged in order with the count they came to |
| `UploadFates.ReadyItemsAreTried` | worker/transcoder/worker_transcoder.go:262-301 | In one pass an item that stays at most 200 ms old is left alone, and one that is older is tried or dropped unless five attempts have been made |
| `UploadProofs.ItemOutcome` | worker/transcoder/worker_transcoder.go:247-305 | By key: a data file or init segment listed once has exactly one of these outcomes, unless the pass itself queues another init segment with the same path, time and destination |
| `UploadProofs.QueuedInitOutcome` | worker/transcoder/worker_transcoder.go:355-364 | The same for an item listed once, with a condition that can be checked before the pass: storing none of the listed or waiting files would queue an init segment of its key |
| `UploadProofs.FileOutcome` | worker/transcoder/worker_transcoder.go:247-305 | The same for an item listed once that is no waiting init segment |
| `UploadProofs.OnePassKeepsOrder` | worker/transcoder/worker_transcoder.go:247-305 | Items not ready at the end of a pass stay in their order, followed by the init segments queued in the pass |
| `UploadProofs.InitAfterData` | worker/transcoder/worker_transcoder.go:355-364 | In every run of adds and passes an fMP4 init segment is on the list, or was tried, only after a first data segment of the same rendition was stored |
| `UploadProofs.InitFollowsData` | worker/transcoder/worker_transcoder.go:355-364 | In every run, once an fMP4 init segment of a rendition has been added, each stored first data segment of the rendition is followed at once by an init segment of it being queued |
| `UploadProofs.AttemptsInEveryRun` | worker/transcoder/worker_transcoder.go:280-293 | In every run a file is attempted at most three times for each time it entered the list |
| `UploadProofs.RunConserves` | worker/transcoder/worker_transcoder.go:247-305 | Over every run, items and retries are conserved from the adds to the stored, dropped and listed ones |
| `Paths.RenditionsAgree` | worker/transcoder/worker_transcoder.go:516-531 | The two ways in which the code cuts the rendition out of a path agree if and only if the rendition directory has a non-empty name |
| `Paths.RenditionIs` | worker/transcoder/worker_transcoder.go:516-531 | A path dir/rendition/name has rendition as its rendition |
| `Paths.FirstIsRecognised` | worker/transcoder/worker_transcoder.go:355-356 | Every finished segment whose name starts with seg_1., seg_00000. or segment_1. is a first data segment |
| `Paths.DetectorInputIsTaken` | worker/transcoder/worker_transcoder.go:407-409 | A packager segment seg_n.m4s below a directory that names the bitrate is detector input |
| `Paths.DetectorInitIsTaken` | worker/transcoder/worker_transcoder.go:412-414 | So is init.mp4 in that directory |
| `Paths.RenditionsDifferExample` | worker/transcoder/worker_transcoder.go:313-325 | For out//seg_1.m4s one way gives no rendition and the other gives out/ |
| `PlaylistApp.UpdatePlaylistNewDetectedSegment` | worker/transcoder/worker_transcoder.go:726-795 | The target is found exactly when a line that names no init segment contains the segment name; written are the lines up to and including the first such line, or all: one with init.mp4 names segment_init.mp4 instead and then ends in a quote, one with seg_ has its last seg_ replaced by segment_, any other is unchanged |
| `PlaylistProofs.TargetCanBeSliced` | worker/transcoder/worker_transcoder.go:767-777 | When the segment name contains seg_, so does the line that names it, at which the code slices |
| `PlaylistProofs.LaterTargetAppends` | worker/transcoder/worker_transcoder.go:726-795 | When lines were appended to the source playlist and a segment no earlier is detected, the new playlist extends the previous one, as section 6.2.1 of RFC 8216 asks |
| `PlaylistProofs.SameTargetSamePlaylist` | worker/transcoder/worker_transcoder.go:726-795 | Rewriting again for the same segment gives the same playlist, whatever lines were appended to the source playlist meanwhile |
| `PlaylistProofs.PlaylistNamesStoredFile` | worker/transcoder/worker_transcoder.go:704-708 | A line that names the segment, whatever stands before and after the name, gets the name of the stored file and no other change if and only if no underscore follows the one in the last seg_ of the path and no seg_ follows that one in the line |
| `PlaylistProofs.LaterUnderscoreExample` | worker/transcoder/worker_transcoder.go:704-708 | seg_1_2.m4s is stored as segment_2.m4s while the playlist says segment_1_2.m4s |
| `PlaylistProofs.DetectionIgnoresItsSegments` | worker/transcoder/worker_transcoder.go:407-409 | A stored detected segment is classified as detector input if and only if it names the bitrate, is a data segment, and its directory contains seg_ |
| `PlaylistProofs.DetectionIgnoresItsInit` | worker/transcoder/worker_transcoder.go:412-414 | segment_init.mp4 is never detector input as an init segment, nor as a data segment unless its directory contains seg_ |
| `PlaylistApp.RemoveDetectionTargetRendition` | worker/transcoder/worker_transcoder.go:798-857 | On a header followed by tag and URI pairs (section 4.3.4.2 of RFC 8216) the bytes written are the playlist without exactly the pairs whose URI contains the bitrate; on all files they are that if and only if the playlist is a header followed by such pairs and by tags whose URI stands after removed pairs of which the last has the same tag |
| `PlaylistProofs.RemovalFilters` | worker/transcoder/worker_transcoder.go:798-857 | The same equivalence for the lines from any point of the header on |
| `PlaylistProofs.StreamInfIs` | worker/transcoder/worker_transcoder.go:812-826 | The tag is recognised exactly by EXT-X-STREAM-INF |
| `PlaylistProofs.FilterableWithoutTwoTags` | worker/transcoder/worker_transcoder.go:798-857 | When no tag stands directly after another, the playlists filtered correctly are exactly the headers followed by pairs |
| `PlaylistProofs.RejoinedExample` | worker/transcoder/worker_transcoder.go:812-845 | A playlist that is no header followed by pairs and is filtered correctly: a tag, a removed pair with the same tag, and a line that stays |
| `PlaylistProofs.RemovalIdempotent` | worker/transcoder/worker_transcoder.go:798-857 | On a header followed by pairs a second removal changes no byte if and only if no kept line ends in a second carriage return |
| `PlaylistProofs.SecondRemovalExample` | worker/transcoder/worker_transcoder.go:798-857 | A line that ends in two carriage returns loses one in each of two removals |
| `PlaylistProofs.StrayLineRepeatsTag` | worker/transcoder/worker_transcoder.go:812-845 | A concrete playlist outside that shape: a line after a pair makes the code write the tag again |
| `PortPlanApp.FFmpegPorts` | job/command.go:232-363 | The ports of the ffmpeg outputs in order, the last one for ffprobe |
| `PortPlanApp.PackagerPorts` | job/command.go:398-469 | The packager reads rendition n on the port ffmpeg sends it to |
| `PortPlanApp.EncoderPorts` | job/command.go:588-809 | When ffmpeg runs alone its arguments end at the first video output that is not AV1, and otherwise hold the ffprobe port only |
| `PortPlanApp.TranscoderSpec.HasAV1Output` | job/command.go:52-63 | Whether some video output is AV1 |
| `PortPlanApp.TranscoderSpec.AddDetectionVideoOutput` | job/command.go:69-129 | Adds one output at the end, exactly when no output has the detection bitrate; each of its fields is that of the detection settings or, when that is not set, its default |
| `PortPlanApp.TranscoderSpec.OutputPorts` | worker/transcoder/worker_transcoder.go:1082-1163 | Tests for AV1 before it adds the detection output: without AV1 the rendition ports of the extended spec and the ffprobe port, with AV1 no rendition port |
| `PortPlanProofs.DetectionEmptiesAv1Job` | job/command.go:588-640 | A validated job with an AV1 output whose detection output has to be added is given no output port at all |
| `PortPlanProofs.RenditionPortsDistinct` | job/command.go:243-353 | No two renditions of a job share a port, and all lie just above the base |
| `PortPlanProofs.FfprobePortFree` | job/command.go:369-371 | For every validated spec the ffprobe port is no rendition port, before and after the detection output is added |
| `PortPlanProofs.DetectionKeepsVideoPorts` | job/command.go:126-128 | Adding the detection output moves no video rendition to another port |
| `PortPlanProofs.DisjointOverRuns` | worker/app/worker_app.go:326-341 | Over any sequence of launches, failed launches, stops and checks no two jobs of a worker ever send to the same port, ffprobe's included, if and only if every launch finds its ports free: next to every running entry the rendition ranges lie apart, the bases differ if both probe, and neither probes inside the other's range. AV1 jobs use no rendition port, overhanging ones one more than was counted |
| `PortPlanProofs.RenditionsDisjointOverRuns` | worker/app/worker_app.go:326-341 | The same of rendition ports alone, with the condition on the ranges alone |
| `PortPlanProofs.StepKeepsDisjoint` | worker/app/worker_app.go:326-341 | One operation keeps all ports apart, or all rendition ports, if and only if it launches no job or one whose ports, or rendition ports, are free |
| `PortPlanProofs.SecondLaunch` | worker/app/worker_app.go:326-341 | Next to a single job at the base of the worker, the rendition ports are free if and only if that job does not overhang or the new one does not start at its base; with fewer than 1000 renditions all ports are, if moreover not both probe at one base |
| `PortPlanProofs.LaunchOnlyDisjoint` | worker/app/worker_app.go:326-341 | While jobs are only launched, an earlier job shares a rendition port with a later one if and only if it uses one port more than the worker counted, the later one uses its base, and no counted rendition lies between; with fewer than 1000 renditions the only other port two jobs can share is ffprobe's, if and only if both probe and no rendition is counted for the earlier one or between |
| `PortPlanProofs.OverhangExample` | worker/app/worker_app.go:326-341 | A job the validator accepts as it is, of which two launched on a new worker share port 10002 |
| `PortPlanProofs.ValidatedDoNotOverhang` | job/validator.go:198-204 | A validated job uses one port more than the worker counted if and only if it asks for detection, has no output of the detection bitrate and no AV1 output |
| `PortPlanProofs.OverlapAfterReap` | worker/app/worker_app.go:326-341 | A run of equal jobs without AV1 after which two running ones have the same ports: launch, launch, reap the first, launch |
| `PortPlanProofs.Av1OverlapExample` | worker/app/worker_app.go:326-341 | The same run of an accepted AV1 job: the two running jobs share no rendition port and both send to ffprobe port 11002 |
| `ValidatorApp.ContainsString` | job/validator.go:42-51 | Membership in the list |
| `ValidatorApp.BitrateString2Float64` | utils/utils.go:14-27 | Succeeds exactly on a number followed by k or K |
| `ValidatorApp.ValidateVideo` | job/validator.go:215-330 | A video output is accepted exactly when codec, frame rate, size, the three rates, preset and CRF are all in range, and crashes the code exactly when an empty rate is reached |
| `ValidatorApp.ValidateAudio` | job/validator.go:332-385 | An audio output is accepted exactly when codec and bitrate are in range, and crashes the code exactly when its codec is valid and its bitrate empty |
| `ValidatorApp.SpecUnderReview.Validate` | job/validator.go:64-386 | Accepts exactly the acceptable specs and then leaves the normalised spec; crashes exactly when all before the first bad output is valid and that output crashes; otherwise rejects, with the spec untouched or with the fields before the error filled in |
| `ValidatorProofs.AcceptedWithinBounds` | job/validator.go:64-386 | Acceptance implies, of the repaired spec, fragment <= segment <= 30, the output counts, and for every output codec, frame rate, resolution, preset and CRF in range, and the same for detection; bitrates are the subject of the next row |
| `ValidatorProofs.VideoLimits` | job/validator.go:215-330 | Of an accepted video output each of width, height, frame rate, codec, preset and CRF may take exactly the values in its range, whatever the other fields |
| `ValidatorProofs.RateLimits` | job/validator.go:228-290 | A number followed by k or K is a valid bitrate exactly from 0 to 10000, and a valid maximal bitrate or buffer size exactly from 0 on; another unit is refused |
| `ValidatorProofs.AudioLimits` | job/validator.go:350-356 | The audio codec may be exactly aac or mp3, and the audio bitrate any number from 0 on |
| `ValidatorProofs.SpecLimits` | job/validator.go:64-100 | The stream type may be exactly hls or dash, the bucket anything but empty, and no duration is ever refused |
| `ValidatorProofs.VideoCountLimit` | job/validator.go:198-204 | Accepted video outputs are accepted together exactly up to ten |
| `ValidatorProofs.AudioCountLimit` | job/validator.go:332-341 | Accepted audio outputs are accepted together exactly up to five |
| `ValidatorProofs.DetectionLimits` | job/validator.go:134-187 | Of a spec accepted with detection, other detection settings are accepted exactly with frame rate 0 to 60, CRF 1 to 51, codec h264 or h265 and a known preset |
| `ValidatorApp.SpecUnderReview.FillInDurations` | job/validator.go:75-100 | A segment duration from 1 to 30 is kept and any other becomes 4; a fragment duration from 1 to 10 is kept up to the segment duration and any other becomes 1; the time-shift depth is cut at 14400 |
| `ValidatorApp.ValidateDrm` | job/validator.go:104-127 | Accepted exactly without DRM, or with the clear key enabled, a spelling of FairPlay and a spelling of cbcs |
| `ValidatorProofs.BitrateInRange` | job/validator.go:236-250 | For every output of an accepted spec, the video bitrate is a number from 0 to 10000 kbps if and only if it does not parse as NaN, which passes both comparisons |
| `ValidatorProofs.NaNAccepted` | job/validator.go:236-250 | Every acceptable video output stays acceptable when its bitrate is replaced by a text that parses as NaN |
| `ValidatorProofs.EmptyRates` | job/validator.go:238-330 | An accepted spec has no empty rate, and a spec that crashes the code has one |
| `ValidatorProofs.EmptyRateCrashes` | job/validator.go:238-290 | Every acceptable output crashes the code when any of its rates is left empty |
| `ValidatorProofs.ValidateIdempotent` | job/validator.go:64-386 | The repaired spec is accepted again and not changed again |

## Left out

- HTTP parsing and status texts, JSON encoding, the AWS and Redis clients beyond maps and lists, logging, configuration, the demo and the DRM key server.
- Integers are unbounded: int64 overflow of the byte and time totals is not modelled.
- Ingest URLs, stream keys, DRM key data, playback and input-info URLs and the receive time at the worker, none of which is read back for a decision.
- Interleaving inside a handler, several schedulers, and a scheduler crash between popping and re-buffering a message.
- Failure of Redis reads and writes, and of decoding stored JSON, including the error paths of addNewJobLoad and scheduleOneJob that only such failures reach.
- Go's container/list is modelled as a sequence with a cursor, so the unlinking of a removed node is not; the position arithmetic says where the cursor stands after a removal.
- PlaylistApp.UpdatePlaylistNewDetectedSegment: requires that the line naming the segment contains "seg_", because the code slices there and otherwise at position -1; the buffered lines are never flushed when no line names the segment, so the file left behind then is not modelled, nor are errors in opening files.
- PlaylistApp.RemoveDetectionTargetRendition: the scanner's limit of 64 KB for a line and the returned path are not modelled.
- UploaderApp.Uploader.UploadFiles: a file that is gone when its pass comes, where the code dereferences a missing size, is not modelled, and paths must hold a slash after their first character, because the code slices one character before the last slash.
- UploadProofs.ItemOutcome: speaks by key of an item that is listed once and not queued again in the same pass; EveryItemHasItsFate follows each of several equal items by its places.
- UploadProofs.QueuedInitOutcome: has the same limit.
- UploadProofs.FileOutcome: has the same limit.
- ValidatorApp.SpecUnderReview.Validate: warnings are left out and number parsing is a parameter; the one function of the source is split into the methods of this module. BitrateString2Float64 alone requires a non-empty string, as its code does.
- PortPlanApp.FFmpegPorts: only port numbers are kept of the command line; the encoder options are linear output without a claim. The same holds of PackagerPorts and EncoderPorts.
- The detection queue and the detector itself, MP4Box, ffprobe and iftop readers, and the file watcher.
- WorkerApp.WorkerApp.LaunchJob: failure to encode the job spec as JSON is left out.
- WorkerApp.WorkerApp.CheckJobStatus: an entry whose executable could not be started has no process, which the code dereferences; the model takes it for one that does not answer. The same holds of StopJob.
