# Bambu gateway: a verified model of its stateful cores

The gateway sits between Bambu printers and their users. It folds partial firmware reports into live
print snapshots, queues and runs slice jobs, relays camera frames, decides which events become
notifications, talks to a plugin host process over RPC, and keeps one connection for each configured
printer. Each of these is modelled here with reports, jobs, frames, calls and clock readings arriving
in any order over runs of any length; network, disk and clocks are inputs.

The pattern is the same throughout. A pure specification gives the next state for each input. A class
with the source's own fields, or a method with the source's own loop, is proved to compute it. The
lemmas then say what holds of every run, and the main ones say it on the reports, events and fields
themselves, without naming the specification they pin down. Histories kept for a statement only (what
was pushed, which worker queued an update, which clients were stopped) are marked as such where they
are declared.

| module | what it covers |
|---|---|
| `Reports`, `JobNames`, `PrintTracking` | report folding, job names, the print broker |
| `JobTracking`, `JobBoundaries`, `PrintSources` | what the broker keeps over runs: registry, job boundaries, keys, sources |
| `DropOldest` | the bounded queues of the broker, the camera and the plugin host |
| `Camera` | the streaming frame parser and the frame fan-out |
| `Notifications`, `Announcements` | event detection, the three filters, and what they let through |
| `SliceJobs`, `SliceProgress`, `SliceQueue`, `SliceCommands` | one slice job and what it shows; queue, workers, cancellation and recovery |
| `PluginHost`, `CloudEvents`, `CloudSubmission`, `SubmissionFrames` | RPC matching, the event pump, print submission across two processes |
| `PrinterService`, `ConnectionLife`, `StoppedClients`, `Reconciliation`, `HotReload`, `PrinterRegistry` | connections, leases and the printer registry |
| `PreparationStages`, `StatusReports`, `StatusFields`, `Reconnects` | printer state and status from print reports, and what reconnects announce |
| `AmsMapping`, `FilamentMatching`, `FilamentChoices` | AMS trays and filament profiles |
| `Prelude`, `Text`, `Models` | shared vocabulary |

`dafny verify dfyconfig.toml` checks the whole project.

## Where the code does less than one might expect

- A file running as `plate.gcode.3mf` and reported again as `plate.gcode` restarts its own job, because
  only one suffix is dropped; so does `gear .3mf` reported again as `gear`, because the white space before
  the suffix is kept (`JobNames.DoubleExtensionSplits`, `SpaceBeforeSuffixSplits`). `DroppedSuffixIff`
  says exactly when identities differ, and `SpellingsSplitIff` when the name clause fires.
- Merging two reports ahead of time is wrong exactly when the second makes an object of what the first
  made a scalar (`Reports.ComposesIff`).
- The same print can be announced twice in a row, because a transition's fingerprint is recorded before
  the thirty-second filter drops it (`Notifications.AnnouncedTwiceInARow`; `RepeatedAnnouncement` says
  exactly when).
- A printer's first progress tick is dropped while the monotonic clock reads less than ten seconds,
  since a missing entry counts as a tick at time zero (`Notifications.FirstTickNeedsTheClock` says exactly
  when, `EarlyFirstTick` gives a run).
- After a restart, jobs that were stored without being enqueued are enqueued with the others, and
  cancellations requested before the restart are forgotten (`SliceQueue.RecoveryIsExact`). A cancelled
  job can come to be sliced exactly as long as its status is still QUEUED (`CancelledCanSliceIff`).
- `stop` promises the error "host shutting down" to pending calls, but the reader has always failed
  them first (`PluginHost.ShutDownIsNeverSeen`).
- When the `start_print` call itself raises, the submission ends with no terminal frame; its slot is
  freed all the same. Without a host it ends so before taking the slot
  (`CloudSubmission.RaisedWithoutFrame`; `EndsCompleteIff` says exactly when a submission ends properly).
- In cloud mode no reload ever closes a camera proxy, so a printer that moved is still dialled at its
  old address (`PrinterRegistry.StaleProxy`, `MovedPrinter`; `ProxyFollowsIff` and `CloudProxyFollowsIff`
  say exactly when a proxy follows its printer).
- A print's transition is announced again on every reconnect more than thirty seconds later when its report
  left no job, because none was known or it was dropped at rest without progress
  (`Reconnects.ReconnectsAnnounceOnceIff` says exactly when).
- The alert for a printer that goes offline while printing never comes: the hub is told of reports only, and
  no report turns the online flag off (`Reconnects.OfflineAlertNeverComes`).
- A lost connection leaves the explanation of an error in place although the printer shows as offline
  (`StatusReports.DisconnectIsCoherentIff`).
- A subscriber that holds on to the broker of a removed printer can connect the stopped client again
  (`StoppedClients.LateSubscriberConnects`; `StoppedStayDisconnectedIff` and `ConnectsIff` say exactly when,
  and `OnlyRemovedBrokersLeaseStopped` that no other broker can). The leases still balance.

## Model

| member | source | states |
|---|---|---|
| `Reports.MergeInto` | app/print_tracking.py:31-37 | the key-by-key accumulating loop computes the recursive merge, whatever the order of the keys |
| `Reports.MergeAt` | app/print_tracking.py:31-37 | one merge: each path reads what the update writes there, and keeps its content where the update is silent |
| `Reports.FoldIsLastWrite` | app/print_tracking.py:31-37 | any list of reports leaves at each path the last value written there or at an overwritten ancestor |
| `Reports.PathsDetermine` | app/print_tracking.py:31-37 | states that agree at every path are equal, so the path reading loses nothing |
| `Reports.MergeTwice` | app/print_tracking.py:31-37 | receiving a report twice changes nothing |
| `Reports.CompatibleReportsCompose` | app/print_tracking.py:31-37 | merging a then b equals merging their merge when b revives no object that a replaced by a scalar |
| `Reports.RevivalBreaksComposition` | app/print_tracking.py:31-37 | when b does revive one, some base state tells the two orders apart |
| `Reports.ComposesIff` | app/print_tracking.py:31-37 | two reports can be merged ahead of time, for every base state, if and only if there is no such revival |
| `JobNames.DroppedSuffixIff` | app/print_tracking.py:47-59 | for every name: dropping one trailing .3mf or .gcode, in any case, keeps its identity exactly when no white space stood before the suffix and what is left does not end in one of them again |
| `JobNames.CaseIsIgnored` | app/print_tracking.py:47-59 | names differing only in case have one identity, white space and suffixes included |
| `JobNames.CaseDoesNotSplit` | app/print_tracking.py:249-291 | a report naming the running job with only its case changed never triggers the name clause |
| `JobNames.SpellingsSplitIff` | app/print_tracking.py:249-291 | on the report fields, in any case: a full and a shortened spelling trigger the name clause exactly when the short one is not blank, no id vouches for the job, and the suffix does not drop cleanly |
| `JobNames.SpellingsDoNotSplit` | app/print_tracking.py:262-291 | two spellings whose suffix drops cleanly never trigger the name clause |
| `JobNames.DoubleExtensionSplits` | app/print_tracking.py:262-301 | one failing class is real: plate.gcode.3mf reported again as plate.gcode restarts its own job |
| `JobNames.SpaceBeforeSuffixSplits` | app/print_tracking.py:262-301 | so is the other: "gear .3mf" reported again as "gear " restarts its own job |
| `PrintTracking.PrintEventBroker.RegisterSource` | app/print_tracking.py:209-247 | submitting a 3MF takes the broker to the specified next state and publishes one snapshot, or changes nothing without a blob |
| `PrintTracking.PrintEventBroker.StartJob` | app/print_tracking.py:302-313 | a job boundary resets everything but a pending gateway job it announces |
| `PrintTracking.PrintEventBroker.Update` | app/print_tracking.py:249-318 | one firmware report: boundary test, reset, merge, rebuild, fan-out, with the sequence advanced by one |
| `PrintTracking.PrintEventBroker.EnrichJob` | app/print_tracking.py:320-366 | cloud metadata is taken only for the job being shown, and then replaces references and a weak source |
| `PrintTracking.PrintEventBroker.DeriveJobKey` | app/print_tracking.py:368-390 | the key shown and the key made active, as the specification derives them |
| `PrintTracking.PrintEventBroker.BuildSnapshot` | app/print_tracking.py:392-494 | the stepwise rebuilding of key, source, registry and view agrees with its specification |
| `PrintTracking.PrintEventBroker.SetPrinterFileAvailable` | app/print_tracking.py:200-207 | a change of file access rebuilds and publishes, no change publishes nothing |
| `PrintTracking.PrintEventBroker.FanOut` | app/print_tracking.py:523-539 | every subscriber's queue gets the snapshot, dropping its oldest entry when full |
| `JobTracking.ReachableRegistry` | app/print_tracking.py:209-247 | in every run: each source under its own key, at most one beside the active key, never more than two; source_for answers only for the job shown and with its own source |
| `JobTracking.InputKeepsRegistry` | app/print_tracking.py:249-366 | the inductive registry invariant, which also ties orphan sources to the pending and shown keys, survives every input |
| `JobTracking.BoundaryForgets` | app/print_tracking.py:302-313 | a boundary that announces no gateway job leaves the state a new broker would reach, holding only the pending submission |
| `JobTracking.HistoriesConverge` | app/print_tracking.py:279-317 | two brokers with any histories meeting the same boundary report publish equal views for every further run |
| `JobTracking.SequenceIsIrrelevant` | app/print_tracking.py:392-494 | the counter influences nothing but the numbers of the snapshots |
| `JobTracking.ConsecutiveSequence` | app/print_tracking.py:392-395 | each published snapshot has the previous sequence plus one |
| `JobTracking.ActiveKeyIsStable` | app/print_tracking.py:368-390 | once a key is active every snapshot carries it until the next boundary or gateway submission |
| `JobTracking.QuietReport` | app/print_tracking.py:285-301 | a report that neither shows an active state nor starts a file is never a boundary |
| `JobTracking.ReportsAccumulate` | app/print_tracking.py:314-317 | through reports within one job the raw state is the fold of all of them |
| `JobTracking.LayerIsLastReported` | app/print_tracking.py:475-478 | the layer shown is the last one any report of the job carried |
| `JobTracking.SubmissionIsHeld` | app/print_tracking.py:209-247 | a submission is shown at once under its key and its file is held |
| `JobTracking.SubmittedJobSurvives` | app/print_tracking.py:302-366 | a submitted job keeps key and file through every report that is no boundary, through the boundaries it announced, and through metadata and changes of file access |
| `JobTracking.SnapshotsArriveInOrder` | app/print_tracking.py:504-539 | whatever the broker takes in and however slowly anyone reads, a subscriber receives snapshots with strictly increasing sequence numbers |
| `DropOldest.RunInOrder` | tools/bambu_cloud_host/event_queue.hpp:25-41 | in every run the queue is a contiguous suffix of the pushes within capacity, deliveries are an in-order selection before it, and the newest push is queued or just delivered |
| `DropOldest.LostOnlyWhenFull` | app/camera_proxy.py:186-201 | by position, every entry pushed is queued, delivered or lost, and only one of these; the lost ones are the oldest queued at each push that met a full queue, one for each |
| `DropOldest.QueueIsPrivate` | app/camera_proxy.py:149-163 | in a fan-out each subscriber's queue depends only on what that subscriber was sent and took |
| `DropOldest.SlowSubscribersDoNotMatter` | app/print_tracking.py:529-539 | a subscriber that stays holds what a queue of its own would hold, fed the cached entry and every publication |
| `Camera.FrameParser.Feed` | app/camera_proxy.py:59-82 | a chunk yields exactly the payloads it completes; the parser keeps the remainder of the stream, in which no frame is complete |
| `Camera.FeedAll` | app/camera_proxy.py:59-82 | any split of a stream into chunks yields, concatenated, the payloads of the whole stream |
| `Camera.PiecesJoin` | app/camera_proxy.py:59-82 | however a stream is cut into chunks, they are together that stream |
| `Camera.DecodeConcat` | app/camera_proxy.py:59-82 | decoding a concatenation is decoding the first part, then its remainder joined to the second |
| `Camera.DecodeEncoded` | app/camera_proxy.py:44-57 | decoding the encoding of any frame list with lengths below 2^32 returns its payloads and leaves the rest |
| `Camera.EncodeDecoded` | app/camera_proxy.py:59-82 | every stream is the encoding of the frames decoded from it followed by the remainder |
| `Camera.CameraProxy.Subscribe` | app/camera_proxy.py:149-163 | a new subscriber starts with the latest frame, if there is one |
| `Camera.CameraProxy.Publish` | app/camera_proxy.py:186-201 | a frame is cached and queued for every subscriber, dropping the oldest of a full queue |
| `Notifications.DetectedEventsAre` | app/notification_hub.py:28-117 | for every event, whether a change of status yields it, kind by kind on the two states, codes and online flags; a progress tick only comes alone |
| `Notifications.DetectEventList` | app/notification_hub.py:28-81 | the list-building loop produces the specified events |
| `Notifications.TablesEqualLogSearch` | app/notification_hub.py:270-319 | with a clock that does not run backwards, the self-purging tables decide every event as a search of the full log |
| `Notifications.SameKeyApart` | app/notification_hub.py:296-311 | two notifications with the same key are more than thirty seconds apart |
| `Notifications.TicksApart` | app/notification_hub.py:313-319 | two progress updates of one printer are at least ten seconds apart |
| `Notifications.AdjacentTransitions` | app/notification_hub.py:284-294 | a transition right after one of its type on its printer passes the fingerprint filter exactly when it belongs to another print |
| `Notifications.SuccessiveTransitions` | app/notification_hub.py:284-294 | after a transition that passed, with any number of repetitions rejected since, the next one passes exactly when its start time, or lacking any its file or layer count, is another |
| `Notifications.RediscoveryIsSilent` | app/notification_hub.py:284-294 | one print's transition, rediscovered however often, is announced at most once while no other print intervenes |
| `Notifications.RepeatedAnnouncement` | app/notification_hub.py:270-311 | print i announced and nothing of its type since: seen again, it is announced again if and only if the latest such transition belonged to another print and thirty seconds have passed since i |
| `Notifications.InterveningPrintWasDropped` | app/notification_hub.py:270-311 | then another print's transition in between was dropped by the thirty-second filter |
| `Notifications.AnnouncedTwiceInARow` | app/notification_hub.py:270-282 | such a run exists |
| `Notifications.FirstTickNeedsTheClock` | app/notification_hub.py:313-319 | as long as no tick of a printer was sent, the next is sent if and only if the monotonic clock reads at least ten seconds |
| `Notifications.EarlyFirstTick` | app/notification_hub.py:313-319 | a first tick five seconds after boot is dropped |
| `Reconnects.ReconnectsAnnounceOnceIff` | app/notification_hub.py:33-49 | end to end: through any number of idle disconnects and reconnects, in every schedule, a print's transition is announced at most once, if and only if the report left a job to tell the print by |
| `Reconnects.CyclesAreEvents` | app/mqtt_client.py:999-1029 | repeated reconnects are runs of the status object: offline, online and the report, each time anew |
| `Reconnects.ReportSettles` | app/mqtt_client.py:258-393 | after a report that sets the state, the same report after a reconnect brings the same state, job and codes |
| `Reconnects.CyclesDetect` | app/notification_hub.py:28-81 | each reconnect rediscovers exactly the one transition, of the same print |
| `Reconnects.OfflineAlertNeverComes` | app/notification_hub.py:48-54 | no report, over LAN or cloud, yields the alert for a printer going offline while printing |
| `Notifications.NotificationHub.OnStatusChange` | app/notification_hub.py:241-252 | events are detected and queued in order, and the printer is marked as seen |
| `Notifications.NotificationHub.IsFingerprintDuplicate` | app/notification_hub.py:284-294 | a transition with the last fired fingerprint is dropped, any other is recorded |
| `Notifications.NotificationHub.IsDeduped` | app/notification_hub.py:296-311 | the table is purged of old entries and the key tested and recorded |
| `Notifications.NotificationHub.IsThrottled` | app/notification_hub.py:313-319 | the last tick of the printer decides, and is moved only when the tick passes |
| `Notifications.NotificationHub.HandleEvent` | app/notification_hub.py:270-282 | the three filters in order, with the verdict and the new tables |
| `SliceJobs.RunCompletes` | app/slice_jobs.py:624-915 | every run follows only life-cycle edges to a terminal status; progress is a percentage; READY means output stored and progress 100; printed means READY; exactly the matching notification, none for a cancelled job |
| `SliceJobs.RunOutcome` | app/slice_jobs.py:624-915 | final status, stored output and printed flag as functions of the slicer's decisive turn, the cancellation, the printer and the upload |
| `SliceJobs.SliceOutcome` | app/slice_jobs.py:644-760 | slicing ends as its first decisive turn says, with the last result received before it |
| `SliceJobs.UploadOutcome` | app/slice_jobs.py:817-915 | the upload ends aborted exactly when a cancellation was seen by a chunk |
| `SliceJobs.UploadProgress` | app/slice_jobs.py:870-903 | the progress last shown is the share of the file handed over by then, before any cancellation, and never above 99 |
| `SliceJobs.SliceStream` | app/slice_jobs.py:644-760 | the event loop of one slicing, version of the job by version |
| `SliceJobs.UploadFile` | app/slice_jobs.py:870-906 | the upload with its progress callback |
| `SliceJobs.AutoPrintJob` | app/slice_jobs.py:817-915 | tray error, upload, failure, cancellation and hand-over |
| `SliceJobs.RunJob` | app/slice_jobs.py:624-793 | the worker's body for one job computes the specified run |
| `SliceQueue.NeverTwiceNeverLost` | app/slice_jobs.py:612-622 | in every reachable state, across restarts, stops and starts: a job is in at most one place among queue and workers, none begins slicing twice, and while the manager is up every unfinished enqueued job is somewhere |
| `SliceQueue.RecoveryIsExact` | app/slice_jobs.py:498-532 | after a crash at any point recovery queues exactly the queued jobs, once each and in store order, fails the interrupted ones and leaves every other job as it was |
| `SliceQueue.CancelledInQueueNeverSlices` | app/slice_jobs.py:598-610 | a job cancelled while waiting never begins slicing, unless the gateway restarts in between |
| `SliceQueue.CancelledCanSliceIff` | app/slice_jobs.py:498-517 | restarts included, a cancelled job can still come to be sliced if and only if its status is still QUEUED |
| `SliceQueue.RunIsPlayable` | app/slice_jobs.py:624-793 | every run of the worker's body is a sequence of steps of the manager, so the interleaved results cover it |
| `SliceQueue.Reconcile` | app/slice_jobs.py:498-532 | the pass over the persisted jobs computes the recovered store and queue |
| `SliceQueue.SliceJobManager.RecoverOnStartup` | app/slice_jobs.py:498-532 | recovery takes the manager to the specified state |
| `SliceQueue.SliceJobManager.SubmitJob` | app/slice_jobs.py:534-590 | a job is stored, and queued with a cancel flag when asked to |
| `SliceQueue.SliceJobManager.CancelJob` | app/slice_jobs.py:598-610 | a cancellation is accepted exactly for stored unfinished jobs |
| `SliceQueue.SliceJobManager.StartWorkers` | app/slice_jobs.py:479-486 | the workers are created, unless the manager is running |
| `SliceQueue.SliceJobManager.RequestStop` | app/slice_jobs.py:488-496 | one stop mark for each worker joins the queue, unless the manager is not running |
| `SliceQueue.SliceJobManager.FinishStop` | app/slice_jobs.py:488-496 | once every worker has ended the list is cleared, so that a later start makes new ones |
| `SliceQueue.SliceJobManager.TakeNext` | app/slice_jobs.py:612-622 | an idle worker takes the head of the queue, or ends on a stop mark |
| `SliceQueue.SliceJobManager.RunTaken` | app/slice_jobs.py:612-622 | the taken job runs to a terminal status and the worker is idle again |
| `PluginHost.TableTellsFates` | app/cloud/plugin_host.py:110-190 | over every interleaving each request is in the state its own events put it in; ids count admitted calls and the table holds exactly the unresolved ones |
| `PluginHost.ReturnsOnce` | app/cloud/plugin_host.py:110-152 | a call that has returned keeps its outcome whatever happens later |
| `PluginHost.RepliesAreOwn` | app/cloud/plugin_host.py:154-190 | a call returns only a reply sent to its own id after it was issued and before anything else resolved it |
| `PluginHost.LateResponse` | app/cloud/plugin_host.py:166-170 | a response after the call has ended, or for no call, changes nothing |
| `PluginHost.NoCallIsStranded` | app/cloud/plugin_host.py:86-108 | after reader exit or stop no call waits and none is admitted |
| `PluginHost.ShutDownIsNeverSeen` | app/cloud/plugin_host.py:102-108 | stop's own failure of pending requests never finds one: the reader has failed them already |
| `PluginHost.RpcClient.Begin` | app/cloud/plugin_host.py:110-135 | admission, fresh id, pending entry |
| `PluginHost.RpcClient.OnFrame` | app/cloud/plugin_host.py:154-183 | one response frame: matched to its pending id, or discarded |
| `PluginHost.RpcClient.OnTimeout` | app/cloud/plugin_host.py:146-152 | a timeout drops the entry |
| `PluginHost.RpcClient.OnReaderExit` | app/cloud/plugin_host.py:184-190 | the reader's exit fails every open call |
| `PluginHost.RpcClient.FinishStop` | app/cloud/plugin_host.py:86-108 | stop ends the reader and fails what is left |
| `CloudEvents.EventQueue.Push` | tools/bambu_cloud_host/event_queue.hpp:25-31 | a push onto 1000 queued events drops the oldest |
| `CloudEvents.EventQueue.Drain` | tools/bambu_cloud_host/event_queue.hpp:35-41 | a drain removes the oldest events, at most 200 |
| `CloudEvents.RunPump` | app/cloud/event_pump.py:57-77 | every event of every successful poll goes to its handler, in order; failed polls are skipped |
| `CloudEvents.PumpAgainstHost` | app/cloud/event_pump.py:57-77 | the loop fed by the host through any interleaving dispatches each pushed event at most once, in push order |
| `CloudEvents.DispatchedInOrder` | app/cloud/event_pump.py:57-77 | through any pushes and polls each event is dispatched at most once, in push order, and those queued come after |
| `CloudSubmission.OneWorkerAtATime` | tools/bambu_cloud_host/plugin_loader.cpp:724-732 | in every run at most one worker lives, a new one is accepted exactly when none does, and no update of a worker is queued after a successor's |
| `CloudSubmission.PluginLoader.Start` | tools/bambu_cloud_host/plugin_loader.cpp:724-732 | no agent, busy, or accepted, by compare-and-exchange |
| `CloudSubmission.PluginLoader.WorkerReturns` | tools/bambu_cloud_host/plugin_loader.cpp:773-818 | a failing return code becomes an error update, and the flag is cleared last |
| `CloudSubmission.SubmissionsAreSingleFlight` | app/cloud/cloud_printer.py:299-352 | in every interleaving at most one submission holds the slot, which is taken exactly while one does; a submission that ran to its end yielded progress and exactly one terminal frame, relaying the updates in order; an overlapping one only the in-flight error |
| `CloudSubmission.EndsCompleteIff` | app/cloud/cloud_printer.py:309-352 | an ended submission yielded progress and exactly one terminal frame if and only if a host was attached, its start_print call did not raise, and its generator was not closed before the terminal frame |
| `CloudSubmission.RaisedWithoutFrame` | app/cloud/cloud_printer.py:309-352 | a call that raises: no frame at all, and the slot free again |
| `CloudSubmission.OverlapDisturbsNothing` | app/cloud/cloud_printer.py:299-308 | rejecting an overlapping submission leaves the slot, its queue and every other submission as they were |
| `CloudSubmission.CloudPrinterClient.Begin` | app/cloud/cloud_printer.py:299-311 | a submission is rejected while the slot is taken, raises without a host, else takes the slot with an empty queue |
| `CloudSubmission.CloudPrinterClient.HandleUpdateStatus` | app/cloud/cloud_printer.py:246-250 | an update is queued for the submission in the slot, or dropped |
| `CloudSubmission.CloudPrinterClient.Take` | app/cloud/cloud_printer.py:330-350 | one queued update becomes a progress, done or error frame |
| `CloudSubmission.CloudPrinterClient.TimeOut` | app/cloud/cloud_printer.py:322-329 | a wait without updates yields the timeout error |
| `CloudSubmission.CloudPrinterClient.Listen` | app/cloud/cloud_printer.py:318-352 | from any queue, the loop follows the protocol and, unless still waiting, ends complete with the slot free |
| `PrinterService.LeasesAreConserved` | app/print_tracking.py:179-198 | in every run of subscriptions, timers, traffic and reconciliations: the registered client holds one lease for each subscriber of its broker, a client the broker left holds none, no leased client has its idle disconnect armed, and no printer is registered for LAN and relay at once |
| `PrinterService.StoppedExactlyOnce` | app/printer_service.py:337-402 | every client ever created is registered under one printer or was stopped, exactly once; so are camera proxies |
| `PrinterService.SetLeaseKeeps` | app/print_tracking.py:179-198 | moving a broker to another client moves every outstanding lease and changes nothing else |
| `PrinterService.ReleasedLeases` | app/mqtt_client.py:666-670 | n releases give back n leases and arm the timer only at none |
| `PrinterService.AcquiredLeases` | app/mqtt_client.py:659-664 | n acquisitions take n leases and leave the timer off |
| `PrinterService.BambuMqttClient.AcquireConnectionLease` | app/mqtt_client.py:659-664 | a lease is counted, the idle timer cancelled and the session ensured |
| `PrinterService.BambuMqttClient.ReleaseConnectionLease` | app/mqtt_client.py:666-670 | a lease is given back, never below none, and the timer armed at none while there is a session |
| `PrinterService.BambuMqttClient.ScheduleDisconnect` | app/mqtt_client.py:983-995 | the timer is rearmed only with a session and without leases |
| `PrinterService.TransferLeases` | app/print_tracking.py:179-198 | all leases of the replaced client end up with its successor |
| `StoppedClients.ConnectsIff` | app/mqtt_client.py:659-664 | a disconnected client gets a session from exactly two steps, its own use and a subscription to a broker that leases it; no reconciliation gives one |
| `StoppedClients.StaysDisconnectedIff` | app/printer_service.py:359-402 | while every stopped client is disconnected, a step changes that if and only if it connects one of them |
| `StoppedClients.StoppedStayDisconnectedIff` | app/printer_service.py:359-402 | in every run stopped clients are disconnected at every point, if and only if no step connects one of them |
| `StoppedClients.OnlyRemovedBrokersLeaseStopped` | app/print_tracking.py:504-521 | a broker that leases a stopped client is registered no more: its printer was removed |
| `StoppedClients.LateSubscriberConnects` | app/print_tracking.py:504-521 | a run in which a subscriber to a removed printer's broker connects the stopped client |
| `Reconciliation.LanRegistryAgrees` | app/printer_service.py:337-402 | outside cloud mode, in every run: registries hold exactly the configured printers, clients and camera proxies dial the configured address, names and file flags are the configured ones |
| `HotReload.LastEntryWins` | app/printer_service.py:351-351 | the target holds the listed serials, each with its last configuration |
| `PrinterRegistry.Registry.SyncPrinters` | app/printer_service.py:337-402 | a reload: exactly the new serials, client and proxy kept if and only if the address is unchanged, brokers kept, dropped or made accordingly, by a run of the modelled steps |
| `PrinterRegistry.ReloadStopsTheReplaced` | app/printer_service.py:359-390 | exactly the removed and replaced clients are stopped, each once, and exactly their camera proxies closed |
| `PrinterRegistry.Registry.SyncCloudPrinters` | app/printer_service.py:404-458 | a cloud-mode reload under any LAN policy: registries, identities of kept clients, relay names and proxies |
| `PrinterRegistry.RegistriesPartition` | app/printer_service.py:404-458 | in cloud mode the LAN and relay registries are disjoint and together cover the configuration |
| `PrinterRegistry.CloudReloadKeepsProxies` | app/printer_service.py:417-427 | with the policy as configured, a cloud-mode reload leaves every camera proxy, even of removed or moved printers |
| `PrinterRegistry.ProxyFollowsIff` | app/printer_service.py:417-468 | for every state and LAN policy: a proxy that dialled its printer still does after a cloud-mode reload if and only if the printer stays at the same address and does not lose a LAN client |
| `PrinterRegistry.CloudProxyFollowsIff` | app/printer_service.py:417-435 | with the policy as configured: if and only if the printer stays configured at the same address; otherwise it dials the old one |
| `PrinterRegistry.StaleProxy` | app/printer_service.py:559-576 | any printer reloaded, watched and reloaded at another address keeps a proxy that dials the old one |
| `PrinterRegistry.MovedPrinter` | app/printer_service.py:559-576 | that run, through the methods of the service object |
| `PrinterRegistry.Registry.CheckPrinter` | app/printer_service.py:370-390 | changed address: stop, replace, rewire, drop the proxy; changed name: rename in place |
| `PrinterRegistry.Registry.EnsureLanClient` | app/printer_service.py:469-496 | LAN side of cloud-mode routing |
| `PrinterRegistry.Registry.RouteToRelay` | app/printer_service.py:436-458 | relay side of cloud-mode routing |
| `PrinterRegistry.Registry.SetConnectionLease` | app/print_tracking.py:179-198 | the release and acquire loops, once per subscriber and only on a change |
| `PrinterRegistry.Registry.GetCameraProxy` | app/printer_service.py:559-576 | a proxy is made once, from the address configured then |
| `PreparationStages.NamedIffCategorized` | app/preparation_stages.py:17-124 | a stage has a name if and only if it has a category |
| `PreparationStages.StateTable` | app/preparation_stages.py:127-173 | each state exactly under its own condition; a stage is shown exactly when it explains the state |
| `PreparationStages.RestIgnoresLayer` | app/preparation_stages.py:127-173 | whether a print is at rest never depends on the layer |
| `StatusReports.ReplayIsHarmless` | app/mqtt_client.py:258-393 | delivering a report again changes neither the status nor the firmware state |
| `StatusReports.StatusIsCoherent` | app/mqtt_client.py:258-393 | over any run of reports and lost connections, from a new status on, right after every report: an error is explained exactly while paused or stopped with a code or error number present, no job without progress is shown at rest, a stage is shown exactly while it explains the state |
| `StatusReports.PlainPauseThenDisconnect` | app/mqtt_client.py:258-393 | a pause without any error explains nothing, and a lost connection then breaks nothing |
| `StatusReports.DisconnectIsCoherentIff` | app/mqtt_client.py:1024-1029 | a lost connection breaks this until the next report if and only if an error was being explained, that is, the printer was paused or stopped with a code or error number present |
| `StatusReports.LiveStatus.Disconnect` | app/mqtt_client.py:1024-1029 | a lost connection sets the printer offline and nothing else |
| `StatusReports.SilentReportChangesNothing` | app/mqtt_client.py:258-393 | a report without any of the fields changes nothing |
| `StatusReports.LiveStatus.Connect` | app/mqtt_client.py:999-1013 | a new connection sets the printer online and leaves its state to the next report |
| `StatusReports.LiveStatus.Apply` | app/mqtt_client.py:258-393 | the field-by-field update computes the specified status |
| `AmsMapping.ParseUnits` | app/mqtt_client.py:540-594 | the trays of every unit, numbered four per unit; a report without units keeps the cached ones |
| `AmsMapping.ExtractSelectedTraySlots` | app/filament_selection.py:92-116 | the positions with an integer tray, in dictionary order |
| `AmsMapping.SelectionsAreLast` | app/filament_selection.py:92-116 | each position has at most one tray, the last one chosen for it |
| `AmsMapping.BuildAmsMapping` | app/filament_selection.py:119-189 | size, entries and use_ams of the array, for any authored slots, with every write in range |
| `AmsMapping.ChoicesLandOnTheirSlots` | app/filament_selection.py:119-189 | with distinct authored slots each choice lands at its slot, every other entry is -1, and AMS is used exactly when some position was given a tray |
| `AmsMapping.DenseChoices` | app/filament_selection.py:119-189 | without authored slots a position is its own slot |
| `AmsMapping.BuildAmsMapping2` | app/cloud/print_params.py:17-37 | one bay for each entry, the virtual tray for unmapped ones |
| `AmsMapping.TrayNumberRoundTrips` | app/cloud/print_params.py:29-37 | a tray as the report numbers it splits back into its unit and place |
| `AmsMapping.ChosenTrayIsPrintedFrom` | app/filament_selection.py:119-189 | end to end: the reported tray chosen for a position is the one the print command names for its authored slot |
| `FilamentMatching.IndexById` | app/main.py:1388-1404 | for each id the index holds what a linear search finds: the first profile of the highest positive priority, and nothing where there is none |
| `FilamentMatching.ProfileSearchOrder` | app/main.py:1432-1449 | machine profiles before the catalogue, setting ids before names, earlier before later; nothing only for a blank or unknown id |
| `FilamentMatching.FirstSuitable` | app/main.py:1472-1498 | the first suitable tray of the sorted list is the suitable one with the lowest slot |
| `FilamentMatching.PreferredTray` | app/main.py:1478-1511 | lowest slot with the exact id, else lowest of the same type, else none, with the matching reason |
| `JobBoundaries.BoundaryIff` | app/print_tracking.py:257-301 | the branch that resets a job is taken exactly when the report fields say so: an active state after a terminal one, or in an active or project_file report another task, subtask or start id, or another name that no id vouches for |
| `JobBoundaries.NewPrintForgets` | app/print_tracking.py:279-316 | a report of another print leaves exactly what a new broker reaches by it, holding only the pending submission, or for the submission's own print what was registered for it; the accumulated report is that report alone |
| `JobBoundaries.SamePrintAccumulates` | app/print_tracking.py:249-317 | every other report is merged, and an active job keeps its key |
| `JobBoundaries.NextPrintIsFresh` | app/print_tracking.py:279-313 | an active report after a finished print, nothing pending: the state of a new broker |
| `PrintSources.NothingIsInherited` | app/print_tracking.py:279-316 | a print that ended on layer 200, then a bare RUNNING: layer 0 and no key |
| `PrintSources.KeyOfFreshPrint` | app/print_tracking.py:368-390 | the key of a print: its real ids and then its name, or the name alone, or none |
| `PrintSources.NameAloneKeepsKey` | app/print_tracking.py:386-389 | a print already shown under a key keeps it when all that comes is a name |
| `PrintSources.FirstAddressTells` | app/print_tracking.py:62-82 | the first address field that is set wins; without one only a 3MF name tells a place |
| `PrintSources.CacheSpellingsAgree` | app/print_tracking.py:67-82 | name, /cache/name and /sdcard/cache/name are one address |
| `PrintSources.SourceOfFreshPrint` | app/print_tracking.py:426-461 | a print has a source exactly when it has a key and a reported address; on the web it is available, on the printer only with file access, and the reason says which |
| `PrintSources.SubmissionIsAdopted` | app/print_tracking.py:411-425 | ids given by the firmware move the pending file to the key made of them and use the submission up; a report of a print already over does not |
| `PrintSources.SubmissionStaysPending` | app/print_tracking.py:368-425 | without ids the submission is shown under its own key and stays pending |
| `PrintSources.PendingUntilSeenRunning` | app/print_tracking.py:404-410 | among reports that leave it in place, a submission is used up exactly by one after which its print is active |
| `PrintSources.SubmissionShown` | app/print_tracking.py:209-247 | a submission is shown at once with its key, registry entry, mapping and availability |
| `PrintSources.EnrichmentIsAdvisory` | app/print_tracking.py:320-366 | metadata counts for the job shown only; a cloud file is taken exactly over no source or a printer file that cannot be fetched |
| `PrintSources.TitleShown` | app/print_tracking.py:464-471 | every snapshot is titled by the reported name, else by that very job's cloud title, else by its file |
| `PrintSources.FieldsAreLastReported` | app/print_tracking.py:396-486 | through a run of one job, state, ids, layers and tray in use are the ones last reported |
| `PrintSources.OneSnapshotEach` | app/print_tracking.py:392-395 | each publishing input adds exactly one snapshot, of the state it leads to |
| `Notifications.FingerprintsTellRunsApart` | app/notification_hub.py:130-142 | two jobs have one fingerprint if and only if their start times agree, when either has one, and else their file names and layer counts; no job, no fingerprint |
| `Notifications.TicksWhenMoved` | app/notification_hub.py:67-117 | a print that goes on ticks exactly when percentage or layer changed or the estimate moved by five minutes |
| `Announcements.RediscoveredIff` | app/notification_hub.py:284-294 | a transition is dropped as rediscovered exactly when the latest report of that change on the printer was of the same print, by start time or by file and layers |
| `Announcements.AnnouncedIff` | app/notification_hub.py:270-311 | any other event but a tick is announced exactly when the same message, by code or by print, was not announced within thirty seconds |
| `Announcements.TickAnnouncedIff` | app/notification_hub.py:313-319 | a tick is announced exactly when the clock reads ten seconds and every announced tick of the printer is ten seconds back |
| `SliceProgress.SlicingShows` | app/slice_jobs.py:675-722 | after every undecided turn the job shows the last percentage told, within 0 to 100, and the last message, and is otherwise unchanged |
| `SliceProgress.RunShowsAndEnds` | app/slice_jobs.py:624-915 | a whole run shows that progress turn by turn and ends with the status, error and notification its first decisive turn, its file, the tray and the upload call for |
| `PluginHost.WaitingCallReturns` | app/cloud/plugin_host.py:141-190 | a waiting call whose frame arrives returns that very reply or error, and the reader's exit gives it the closed-stdout error, whatever follows |
| `PluginHost.WritingCallReturns` | app/cloud/plugin_host.py:134-190 | so does a call still writing, once its write is done |
| `PluginHost.NewCall` | app/cloud/plugin_host.py:110-132 | an admitted call gets the next id and starts writing |
| `PluginHost.TimedOutIff` | app/cloud/plugin_host.py:145-152 | a call ends timed out if and only if its timeout struck while it was waiting |
| `PluginHost.StdinClosedIff` | app/cloud/plugin_host.py:136-143 | a call ends with the write error if and only if its write failed while it was writing |
| `SubmissionFrames.FramesAreYielded` | app/cloud/cloud_printer.py:299-352 | in every run the frames of a submission are those its steps yield, in order |
| `SubmissionFrames.EndingsGoBack` | app/cloud/cloud_printer.py:311-352 | in every run a submission yields done exactly if it took a stage 6 update, and an error code exactly if it took stage 7 with it, start_print returned it, its wait timed out (-99) or it was refused (-1009) |
| `SubmissionFrames.WorkerFailureEnds` | tools/bambu_cloud_host/plugin_loader.cpp:773-793 | a failing plugin call queues its code, which, behind any progress not yet taken, ends the waiting submission with that code and frees the slot |
| `SubmissionFrames.TimeoutMissesNothing` | app/cloud/cloud_printer.py:320-334 | a wait times out only when everything delivered has been shown |
| `SubmissionFrames.ClosingFrees` | app/cloud/cloud_printer.py:309-352 | a submission that holds the slot can be closed at any moment, and the next is then admitted |
| `SubmissionFrames.HostRunTells` | tools/bambu_cloud_host/plugin_loader.cpp:724-818 | in every run of the host: each worker is where its return and its clearing of the flag put it, the queue got the reports and failing codes in order, and start_print answers 0, no agent (-1) or busy (-98) accordingly |
| `SubmissionFrames.WorkerCanEnd` | tools/bambu_cloud_host/plugin_loader.cpp:773-818 | a printing worker can report, return and clear the flag, and until it clears the flag the host is busy |
| `SliceCommands.CancellationTells` | app/slice_jobs.py:598-612 | in every run: cancelling an unfinished job asks for it and changes nothing else, any other cancel changes nothing; an unfinished job is asked to stop exactly if it was cancelled since its submission and the last restart |
| `SliceCommands.StartsOnce` | app/slice_jobs.py:479-511 | starting a running manager and stopping one that does not run change nothing; running means started and not stopped since |
| `SliceCommands.StopDrains` | app/slice_jobs.py:488-511 | once a worker of a stopped manager has ended, every job that was queued has been taken |
| `SliceCommands.StopCanEnd` | app/slice_jobs.py:488-511 | a running manager with nothing to do can be stopped to its end |
| `StatusFields.FieldsAreLastTold` | app/mqtt_client.py:258-370 | after any run of reports and reconnections, stage, speed, refill, temperatures, error number, online flag and firmware state are the last told |
| `StatusFields.ReportShows` | app/mqtt_client.py:318-393 | one report: when the state is determined anew and from what, what the job keeps and when it is forgotten, which error is explained |
| `StatusFields.CodesAreRead` | app/mqtt_client.py:346-358 | the codes are exactly the complete entries, in order |
| `StatusFields.BitsRead` | app/mqtt_client.py:396-415 | the refill flags are bit 18 and bit 10 of the two fields, for negative numbers too |
| `StatusFields.ConnectionShows` | app/mqtt_client.py:999-1029 | a lost connection shows offline, a new one online in the state before |
| `FilamentChoices.IndexMeans` | app/main.py:1376-1404 | what the index holds, on the fields: the first profile of the id made for the machine, else the first made for any, else none |
| `FilamentChoices.ProfileMeans` | app/main.py:1432-1449 | a profile is found exactly when one carries the wanted text; own ones first, and by setting id whenever one there has it |
| `FilamentChoices.LowestMeans` | app/main.py:1452-1511 | availability and lowest slot, on the trays' own fields |
| `AmsMapping.EveryTrayIsListed` | app/mqtt_client.py:540-594 | every tray of every unit is listed, in order, under four times its unit plus its own number |
| `AmsMapping.ShortestArray` | app/filament_selection.py:119-175 | the array is as short as it can be: room for every authored slot and the count, or for every position |
| `AmsMapping.DenseUse` | app/filament_selection.py:119-189 | without authored slots AMS is used exactly when a tray was chosen for a position the array has |
| `AmsMapping.BayStandsForTray` | app/cloud/print_params.py:25-37 | a bay is named for a tray exactly when its unit and place number that tray, and the virtual one for none |
| `ConnectionLife.ConnectionTells` | app/mqtt_client.py:655-680 | over any uses of a new client: session, lease count and idle timer are what its uses since the last stop make them |
| `ConnectionLife.ShownName` | app/mqtt_client.py:620-620 | the name, or the last four characters of the serial |
| `ConnectionLife.DialsIff` | app/printer_service.py:559-576 | a camera is dialled exactly when the printer has no proxy, sends JPEG and has both address and code |
| `ConnectionLife.FilesReachableIff` | app/printer_service.py:140-148 | printer files count as reachable exactly with address and code |

## Left out

- HTTP routes, FTPS, MQTT transport, TLS, SSDP, APNs sending, file persistence and the web UI are not modelled: disk writes succeed and clocks are inputs.
- The closed plugin is not modelled: a worker is an arbitrary list of updates and a return code.
- Unstamped host-exception frames and their fallback routing, and stale frames of an earlier job on the same printer, are not modelled.
- Cancelling a plugin call from outside is not modelled; a timeout's cancel and removal are one step.
- A response frame whose `error` is not an object is not modelled: it would take its call off the table and then end the reader, so that call would wait for its own timeout. The host always sends an object.
- Two overlapping `stop` calls of the slice-job manager end as one.
- The human-readable texts of codes and error numbers are not modelled, only which one is explained.
- The hub's first status of each printer, which announces nothing, is taken as seen before the reconnects of `Reconnects`.
- Camera drain, reconnection and its timing are not modelled.
- Unlocked gaps inside `subscribe` and `_fan_out`: entering, leaving and publishing are atomic, with one producer.
- A snapshot may show a pending source as available before it is registered; no claim is made that `source_for` answers then.
- Deleting a running slice job, failures reading its input, thumbnails, estimates and uuid uniqueness are not modelled; job ids are given.
- The time-throttled writes of slicing progress to the job file are not modelled; every version of the job is in the store.
- The extraction of progress and error text from slicer logs is not modelled; parsed values are data.
- Text is ASCII: Unicode case folding and white space are not modelled, and a list or object where a text is expected renders as a placeholder.
- Merging is on values: that a merged report shares nested dictionaries with the update is not modelled.
- The SHA-256 digest of a submitted file, the parts of a metadata URL, and `updated_at`, `printer_id` and `schema_version` of a snapshot are inputs or omitted; a source's path and reason are omitted.
- Conversions of report fields that raise and abandon the update half way are not modelled; fields are absent, unreadable or numbers.
- In the reload methods, clients, brokers and camera proxies are numbered entries of tables rather than objects (`BambuMqttClient` is the object form of one client): aliasing through a client someone else holds is covered only by the steps on those entries.
- The list given to the printer service when it is built is modelled as its first reload. With a repeated serial the code then leaves the first of the two clients, never connected, neither registered nor stopped.
- Relay clients handed over at start-up by `set_cloud_printers` are modelled as made by the first cloud-mode reload.
- A failed connection attempt is not told apart from a good one: the code keeps the client object, and so its idle timer, either way. One that races with a stop is not modelled.
- StatusReports.ReplayIsHarmless: for hold-offs that answer the same both times and numeric fields, because a clock moving past a hold-off between the two deliveries legitimately changes the answer.
- AmsMapping.TrayNumberRoundTrips: for trays 0 to 3 of a unit; the external spool's number 254 splits like any other tray.
- The other fields a raw AMS tray or unit carries (humidity, type, drying) are not modelled; nor are fields that would overwrite the computed slot number.
- `build_slicer_filament_payload`, the request validation around the mapping, and the remaining fields of a filament match are not modelled.
- Control commands, sequence ids, optimistic holds and acknowledgements are not modelled.
