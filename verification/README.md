# Soul Room: over-the-air updates, from the rollout to the device

Soul Room is a Linux edge agent and the control plane that manages it. This project models, in Dafny, the
parts of it that have to be right when things go wrong, and proves what they promise:

- **The device's update engine** (`Ota*.dfy`). `OtaMachine` is the engine as an event machine: every adapter
  call, save, reply, crash and reboot is an event, and a log of events is a run when the machine accepts it.
  `OtaEngine` is the engine itself, a class with the source's phase methods working on a `Platform` whose every
  answer is arbitrary; each of its methods is proved to do only what the machine accepts. `OtaSafety`,
  `OtaSteps`, `OtaDecisions`, `OtaAdapters`, `OtaReboot`, `OtaSameBoot`, `OtaTerminal`, `OtaAfterCommit` and
  `OtaProgress` prove properties of every run; `OtaDecisions` says what each answer that a call gets decides.
- **The control plane's store and rollout handlers** (`Cloud*.dfy`, `Rollout*.dfy`). `CloudStore` is the store
  with its loops over maps, proved against the operations of `CloudTypes`; `StoreMeaning` says what those mean for
  the fields of the records; `CloudIntegrity` proves what every interleaving of operations, failed saves and
  restarts keeps; `Rollout` says what the handlers of campaigns do,
  `RolloutMeaning` whom they queue jobs for, `RolloutGate` proves the pilot gate, and `RolloutHandlers` contains the two handlers, store call by store call.
- **The agent's job registry** (`AgentJobs.dfy`), which runs delivered jobs at most once to success.
- **All of it together** (`Fleet.dfy`): the store calls of concurrent handlers, agents, lost, repeated and late
  messages, crashes, reboots and restarts in any order, up to the theorem that a campaign that says it is
  completed has been installed, confirmed and committed on every device it targets.
- **Smaller cores**: the agent's bounded queue (`OfflineQueue.dfy`, `QueuePolicy.dfy`), resumable downloads (`Download.dfy`, `DownloadRuns.dfy`),
  password hashes (`Passwords.dfy`), the request limiter (`Limiter.dfy`), vulnerability reports
  (`Advisories.dfy`) and the configuration file (`Config*.dfy`).

Check everything with `dafny verify dfyconfig.toml` (Dafny 4.11).

## Where the code and what is said about it differ

- `agent/docs/QUEUE_POLICY.md:11` says that the oldest low-priority items are dropped under pressure; the code
  drops the newest (`OfflineQueue.NewestGoesFirst`). The model follows the code, and says exactly when the two
  differ: when the first low-priority item still fits on top of everything of higher priority, not all items fit,
  and the low-priority items are not all of the same age (`QueuePolicy.PolicyKeptExactlyWhen`).
- A flush that fails puts unsent items back behind items of the same priority and time, so the queue is restored
  exactly when there is no such tie at the cut (`OfflineQueue.FailedFlushRestores`).
- After a crash or failed save right after a commit, the next delivery may commit again, or find the device
  unhealthy and roll the committed update back; only a recorded commit is the last word
  (`OtaTerminal.CommitRepeatsExactlyWhenUnrecorded`, `OtaAfterCommit.RollbackFollowsExactlyWhenUnrecorded`).
- A request delivered with an empty, non-nil `compatible_from` is not recognised when it is delivered again
  (`OtaTerminal.RedeliveryRecognised`).
- The reboot between activation and commit is certain only when the boot id can be read, both when the reboot is
  asked for and when the update is resumed (`OtaReboot.CommitOnlyOnANewBoot`). As long as the device stays up, an
  update whose boot id was stored is committed only in runs that fail to read it
  (`OtaSameBoot.StoredBootIdNeedsAFailedRead`); without a stored id it can be committed at once
  (`OtaSameBoot.CommitsOnTheSameBootExactlyWhen`).
- Adapters are resolved anew on every delivery. A flatpak plugin that appears after the built-in flatpak adapter,
  which needs no artifact, checked an update installs it without a verified artifact
  (`OtaAdapters.PluginInstallsUnverified`); that is the only way (`OtaAdapters.InstallsUnverifiedExactlyWhen`).
- A promotion that stops after it queued a job leaves the campaign saying that its pilot is complete
  (`RolloutGate.PromotionMisleadsExactlyWhen`, `RolloutGate.PromotionMayStopShort`), and so may a restart
  (`RolloutGate.RestartMisleadsExactlyWhen`).
- The store takes a result for a job in any state and from any device of the tenant, so the states that end a
  job are not final (`CloudIntegrity.EndedJobReopensExactlyWhenReported`); expiry of a job is not passed on to
  its campaign (`CloudIntegrity.ExpiryLeavesCampaignBehind`).
- A partial download that is already complete is never finished while the server honours ranges
  (`Download.CompletePartialIsStuck`); a server that sends everything again is refused when the announced length
  plus what is there exceeds the limit (`Download.FetchSucceedsExactlyWhen`).
- A configuration value that is blank, or ends in a colon, is read back as a subsection header: it and the rest of
  its section come back as the defaults (`ConfigRoundTrip.LoadAfterRender`). With no CA file set, the connection
  timeout is lost (`ConfigRoundTrip.EmptyCaFileForgetsTheTimeout`).

## Model

| member | source | states |
|---|---|---|
| OtaSafety.InstallOnlyAfterChecks | agent/internal/ota/engine.go:133-162 | in every run, with crashes and failed saves anywhere, an installation comes after the native check passed for the same request and artifact, itself right after the digest and signature checks that the adapter which made that check calls for |
| OtaAdapters.InstallerIsTheChecker | agent/internal/ota/adapters.go:19-28 | unless the plugin of that name came or went between deliveries, the adapter that installs is the one that had the update checked, so its own digest and signature checks preceded |
| OtaAdapters.InstallsUnverifiedExactlyWhen | agent/internal/ota/engine.go:133-155 | an adapter that needs an artifact installs one that was never verified if and only if every check it passed was made by the built-in flatpak adapter |
| OtaAdapters.OthersAlwaysVerify | agent/internal/ota/engine.go:133-155 | so under any other adapter name every installed artifact had its digest and signature verified, whatever plugins do |
| OtaAdapters.WhatIsVerified | agent/internal/ota/engine.go:133-142 | right before the native check the release signature of an OSTree release from a remote was verified, and the artifact of any other one, except with the built-in flatpak adapter |
| OtaAdapters.PluginInstallsUnverified | agent/internal/ota/adapters.go:19-24 | such a run: the built-in flatpak adapter checks, the device goes down, a flatpak plugin appears and installs with nothing verified |
| OtaSafety.RollbackOnlyAfterInstall | agent/internal/ota/engine.go:261-289 | a rollback happens only when an installation of the same update had succeeded, and restores exactly the trimmed version that preflight reported and the transaction persisted |
| OtaSafety.CompletedOnlyAfterHealthyCommit | agent/internal/ota/engine.go:224-259 | a completed transaction is only ever written straight after a passing health check, an accepted version and a successful commit, with nothing in between |
| OtaSafety.FilesTellThePast | agent/internal/ota/engine.go:324-364 | whatever happened to a device, the phase in a transaction file implies the history it stands for: checked from verified on, installed over the recorded version, committed while healthy when completed |
| OtaSteps.InstallOnlyOverNamedVersions | agent/internal/ota/engine.go:94-113 | in every run, an update is installed only over a version that was reported and recorded for it in preflight, and that its release names if it names any; what is installed was fetched for it |
| OtaSteps.PreparedOnlyWithRoom | agent/internal/ota/engine.go:104-108 | preflight is passed only when the device has room for the artifact, or there is none to fetch |
| OtaSteps.CommitOnlyAfterActivation | agent/internal/ota/engine.go:164-188 | an update is committed only after its activation succeeded |
| OtaSteps.RebootOnlyAfterItIsRecorded | agent/internal/ota/engine.go:175-186 | a reboot is asked for only right after its request was saved; only the one of a rollback may go on when that failed |
| OtaSteps.FileIsTheLastSave | agent/internal/ota/engine.go:341-364 | a transaction file is what the last successful save of its update wrote, with the time of that save |
| OtaDecisions.GateDecides | agent/internal/ota/engine.go:59-68 | a request that is not valid or has no adapter is refused with that reason and nothing else happens; any other has its file read |
| OtaDecisions.NoFileDecides | agent/internal/ota/engine.go:324-339 | without a file a new transaction is saved; a file that cannot be read is an error |
| OtaDecisions.FileDecides | agent/internal/ota/engine.go:70-188 | a loaded transaction goes on with what its phase calls for, by adapter and release; one of another request, or of a phase that is not known, is refused |
| OtaDecisions.VersionDecides | agent/internal/ota/engine.go:229-246 | after a passing health check, the reported version leads to the commit if it is the commit that an OSTree or flatpak release names, or for any other adapter contains the version, and to the rollback otherwise |
| OtaDecisions.CompletedReportsTheRelease | agent/internal/ota/engine.go:229-254 | a completed transaction is saved only when the device had just reported the very release |
| OtaDecisions.LateFailureRollsBack | agent/internal/ota/engine.go:261-289 | a failure after the installation is answered by a rollback of the same update to the recorded version, and its class and cause are kept |
| OtaDecisions.RollbackDecides | agent/internal/ota/engine.go:268-284 | a rollback that fails is recorded with what went wrong; one that works is followed by asking the adapter for a reboot |
| OtaDecisions.AnswerDecides | agent/internal/ota/engine.go:175-188 | of the built-in adapters all but flatpak want a reboot; without one the update goes on to its health check and a rollback is done |
| OtaDecisions.BootIdDecides | agent/internal/ota/engine.go:191-222 | the update waits exactly while the stored boot id is read; another one leads to its health check, or ends its rollback |
| OtaDecisions.ClockDecides | agent/internal/ota/engine.go:192-212 | a waiting update replies that it waits for two minutes after its file was written, asks again three times, and is then rolled back, or has failed if it was rolled back already |
| OtaDecisions.RequestDecides | agent/internal/ota/engine.go:181-186 | a reboot that was asked for ends the call as pending; when asking fails, the update is rolled back, a rollback has failed, and a retry is only reported |
| OtaDecisions.SaveDecides | agent/internal/ota/engine.go:341-364 | a phase that cannot be saved ends the call with an error; one that is saved goes on as if it had been loaded; a finished rollback ends the call as failed |
| OtaDecisions.CompletionIsReported | agent/internal/ota/engine.go:251-258 | a completion that was saved is reported as success, after the artifact was removed; one that was not is reported as an error |
| OtaSafety.EarlyFailureEndsRolledBack | agent/internal/ota/engine.go:261-267 | in every run, when an effect before installation fails, the next event is that the update is recorded as rolled back with the class and cause, and the one after it the reply that says so, unless the device goes down; so no rollback is called for |
| OtaSafety.RunInv | agent/internal/ota/engine.go:55-189 | the invariant of every run: files and the transaction in hand are justified by the log |
| OtaReboot.EveryCommitIsAccountedFor | agent/internal/ota/engine.go:175-222 | in every run of any device, what comes right before the health check of a commit is that the committing adapter wanted no reboot, or that the boot was seen to differ from the one that persisted the reboot request, with a reboot since, or that a boot id could not be read, now or when the reboot was asked for |
| OtaReboot.CommitOnlyOnANewBoot | agent/internal/ota/engine.go:175-222 | when the boot ids of this update could be read, it is committed only by an adapter that wants no reboot, or on another boot than the one that persisted its reboot request, with a reboot in between; other updates do not matter |
| OtaSameBoot.CommitsOnTheSameBootExactlyWhen | agent/internal/ota/engine.go:191-222 | a device that stays up and reads its boot id can commit an update that waits for a reboot if and only if no boot id was stored with the request |
| OtaSameBoot.StoredBootIdNeedsAFailedRead | agent/internal/ota/engine.go:191-192 | with a boot id stored, every run that commits without a reboot contains a failed read of the boot id, and there are such runs |
| OtaTerminal.TerminalIsForever | agent/internal/ota/engine.go:80-88 | the file of a finished update never changes again, and no later event installs, commits, rolls back or saves anything for it |
| OtaTerminal.NothingAfterRecordedCommit | agent/internal/ota/engine.go:248-254 | once a commit is recorded, the update is never committed again and never rolled back |
| OtaTerminal.CommitRepeatsExactlyWhenUnrecorded | agent/internal/ota/engine.go:248-254 | a commit can be followed by another one for the same update if and only if the event right after it is not a successful save |
| OtaAfterCommit.RollbackFollowsExactlyWhenUnrecorded | agent/internal/ota/engine.go:224-289 | an update can be rolled back after its commit if and only if the event right after the commit is not a successful save |
| OtaTerminal.AnswerTellsTheTruth | agent/internal/ota/engine.go:55-92 | the reply to a delivery names the delivered update, its adapter and its version, and success is reported only when the file of exactly that request says completed |
| OtaTerminal.CompletedIsForever | agent/internal/ota/engine.go:80-82 | a completed file stays completed through anything that runs later |
| OtaTerminal.UnreadableBootIdSkipsTheReboot | agent/internal/ota/engine.go:175-192 | how the boot id comes to be missing: from any transaction about to ask for a reboot, an unreadable boot id lets the next delivery commit without any reboot |
| OtaTerminal.RedeliveryRecognised | agent/internal/ota/engine.go:74-76 | a redelivery is rejected as a different request if and only if its compatibility list is empty and not nil |
| OtaProgress.DeliveryMakesProgress | agent/internal/ota/engine.go:55-289 | with saves succeeding and two minutes between calls, a delivery of the same request ends the update or strictly lowers the measure of phases and reboot attempts left |
| OtaProgress.SixDeliveriesFinish | agent/internal/ota/engine.go:175-222 | six such deliveries always reach a terminal phase, whether or not the device ever reboots |
| OtaProgress.BudgetRunsOut | agent/internal/ota/engine.go:191-222 | the number of deliveries that can leave an update unfinished is bounded by the measure |
| OtaEngine.Engine.Execute | agent/internal/ota/engine.go:55-92 | a call is one delivery: its effects are a run of the machine from the old state to the new one, its reply is about the request, and success means the file says completed |
| OtaEngine.Engine.Deliver | agent/internal/ota/engine.go:70-92 | after validation and adapter lookup, the call ends with the reply the machine gives |
| OtaEngine.Engine.RunPhases | agent/internal/ota/engine.go:94-188 | the phases from the loaded transaction on follow the machine up to the reply |
| OtaEngine.Engine.LoadOrCreate | agent/internal/ota/engine.go:324-339 | the transaction in hand is the stored one, or a fresh one that was saved |
| OtaEngine.Engine.Save | agent/internal/ota/engine.go:341-364 | a save leaves the new file or the old one, and moves the machine accordingly |
| OtaEngine.Engine.Prepare | agent/internal/ota/engine.go:94-131 | preflight and download end at the downloaded phase or with the machine's reply |
| OtaEngine.Engine.RunPreflight | agent/internal/ota/engine.go:94-113 | version, compatibility and space checks end at the prepared phase or with the machine's reply |
| OtaEngine.Engine.VerifyAndInstall | agent/internal/ota/engine.go:133-162 | verification and installation end at the installed phase or with the machine's reply |
| OtaEngine.Engine.Verify | agent/internal/ota/engine.go:133-151 | digest, signature and native checks end at the verified phase or with the machine's reply |
| OtaEngine.Engine.ActivateUpdate | agent/internal/ota/engine.go:164-173 | activation ends at the activated phase or with the machine's reply |
| OtaEngine.Engine.AskForReboot | agent/internal/ota/engine.go:175-186 | the reboot request is persisted before the reboot, and fails over to rollback |
| OtaEngine.Engine.ResumeAfterReboot | agent/internal/ota/engine.go:191-222 | a resumed transaction waits, retries, gives up, confirms or ends as the machine says |
| OtaEngine.Engine.StillOnOldBoot | agent/internal/ota/engine.go:192-212 | on the same boot: wait two minutes, ask up to three times more, then roll back or give up |
| OtaEngine.Engine.ConfirmAndCommit | agent/internal/ota/engine.go:224-259 | health, version and commit follow each other, and completion is saved before success is reported |
| OtaEngine.Engine.ConfirmVersion | agent/internal/ota/engine.go:230-246 | the release is confirmed by the exact commit or by a version text that contains it |
| OtaEngine.Engine.FailAndRollback | agent/internal/ota/engine.go:261-289 | a failure before installation ends rolled back without a rollback call; later ones roll back through the persisted path |
| OtaEngine.Engine.RebootIntoPrevious | agent/internal/ota/engine.go:274-284 | the rollback reboot is persisted and requested, and its failure recorded |
| CloudStore.Store.CreateDevice | cloud-infra/internal/storage/store.go:424-437 | a new device under a new id, in memory and, if the save worked, in the file |
| CloudStore.Store.UpdateDevice | cloud-infra/internal/storage/store.go:488-500 | replaces the record of the tenant's device, or refuses and changes nothing |
| CloudStore.Store.DeleteDevice | cloud-infra/internal/storage/store.go:502-549 | the cascade removes the device, its metrics, jobs and inventory, trims its tenant's campaigns and removes those left without targets |
| CloudStore.Store.AddTelemetry | cloud-infra/internal/storage/store.go:551-569 | takes exactly the metrics before the first refused one, and says why it stopped |
| CloudStore.Store.SaveInventory | cloud-infra/internal/storage/store.go:587-595 | stores the inventory of the tenant's own device only |
| CloudStore.Store.CreateJob | cloud-infra/internal/storage/store.go:610-633 | a job whose key is taken is not created again and the existing one is returned; otherwise it is queued under a new id |
| CloudStore.Store.DeleteJob | cloud-infra/internal/storage/store.go:648-663 | removes the tenant's job if it has ended |
| CloudStore.Store.CreateCampaign | cloud-infra/internal/storage/store.go:691-705 | a new campaign of the caller's tenant under a new id |
| CloudStore.Store.UpdateCampaign | cloud-infra/internal/storage/store.go:733-745 | replaces a campaign within its tenant |
| CloudStore.Store.JobsForDeployment | cloud-infra/internal/storage/store.go:747-757 | exactly the tenant's jobs of the deployment, each once, whatever order the map is walked in |
| CloudStore.Store.NextJob | cloud-infra/internal/storage/store.go:759-778 | hands out a due job and counts the attempt, expires only overdue ones, and finds nothing only when nothing is left waiting |
| CloudStore.Store.CompleteJob | cloud-infra/internal/storage/store.go:780-805 | records the reported state and result and gives the campaign the state its jobs stand for |
| CloudStore.Store.CampaignStateOf | cloud-infra/internal/storage/store.go:807-833 | the flags and counts of the loop give the state defined on the set of held jobs |
| StoreMeaning.PollMeans | cloud-infra/internal/storage/store.go:759-778 | a poll finds a job if and only if one of the device is queued, delivered, running or rebooting with its deadline not passed, and hands out such a one; it expires only such jobs whose deadline has passed, all of them when it finds none |
| StoreMeaning.PollLeaves | cloud-infra/internal/storage/store.go:763-776 | the job that is handed out is delivered and counts one attempt more, the expired ones say so, and all others stay |
| StoreMeaning.ResultMeans | cloud-infra/internal/storage/store.go:780-799 | success, a pending reboot and running are recorded as reported, anything else as failure, and no other job changes |
| StoreMeaning.ResultReachesCampaign | cloud-infra/internal/storage/store.go:800-804 | after a result exactly the campaign of the job, if it is the tenant's, has the state that its jobs now stand for |
| StoreMeaning.CampaignStateMeans | cloud-infra/internal/storage/store.go:807-833 | failed with a job that failed or expired, otherwise running with one that has not succeeded, otherwise pilot complete or completed by whether there are fewer jobs than targets |
| StoreMeaning.CreationMeans | cloud-infra/internal/storage/store.go:610-633 | a job is created for the tenant's own device unless one of its jobs has that key, and is queued unless it says otherwise |
| StoreMeaning.TelemetryMeans | cloud-infra/internal/storage/store.go:551-569 | of at most 5000 metrics those before the first one for a foreign device or with more than twelve labels are taken |
| StoreMeaning.RunsMean | cloud-infra/internal/storage/store.go:488-805 | over every interleaving, failed saves and restarts, in terms of the fields: one job for a tenant and key, and every record on a device there is |
| CloudIntegrity.EveryRunIsSound | cloud-infra/internal/storage/store.go:488-805 | over every interleaving, with failed saves and restarts: at most one live job per tenant and non-empty key, and every job, metric and inventory entry belongs to a live device, jobs to one of their tenant |
| CloudIntegrity.OtherTenantsUntouched | cloud-infra/internal/storage/store.go:488-805 | an operation in one tenant's context leaves devices, jobs, campaigns, metrics and inventory of every other tenant as they were |
| CloudIntegrity.RemovalIsCompleteAndExact | cloud-infra/internal/storage/store.go:502-549 | after a device is removed nothing of its tenant names it and no campaign is left empty, and everything of every other device is kept |
| CloudIntegrity.AttemptsCountDeliveries | cloud-infra/internal/storage/store.go:770-774 | over a run without restarts, a job's attempts are the number of times it was handed out |
| CloudIntegrity.EndedJobReopensExactlyWhenReported | cloud-infra/internal/storage/store.go:780-799 | an ended job changes state if and only if a report with another state comes in for it |
| CloudIntegrity.ExpiryLeavesCampaignBehind | cloud-infra/internal/storage/store.go:763-769 | for a campaign whose state is what its jobs stand for, some poll of a device leaves it behind if and only if none of its jobs had failed or expired and one of those for this device is overdue |
| CloudIntegrity.ExpiryMustLeaveCampaignBehind | cloud-infra/internal/storage/store.go:763-775 | every poll of the device does so, whatever the order of the jobs, if and only if besides no job is due that could be handed out first |
| Rollout.PilotSizeInRange | cloud-infra/internal/server/server.go:498-501 | for at least one target and 1 to 100 percent the pilot has at least one device and at most all, and is the rounded-up share |
| RolloutGate.GateOpensExactlyWhen | cloud-infra/internal/storage/store.go:610-633 | one store call makes a campaign's word for its pilot false if and only if it adds a job to the campaign while that says its pilot is complete |
| RolloutGate.PilotTruthExactlyWhile | cloud-infra/internal/storage/store.go:610-833 | over every interleaving of single store calls, with failed saves and restarts, a campaign that says its pilot is complete holds only succeeded jobs at every moment if and only if no job is ever added to it while it says so |
| RolloutGate.PromotionMisleadsExactlyWhen | cloud-infra/internal/server/server.go:567-575 | a promotion, however far it comes, leaves the campaign saying something false if and only if it added a job and did not write the campaign |
| RolloutGate.RestartMisleadsExactlyWhen | cloud-infra/internal/server/server.go:567-575 | a restart after it finds the same if and only if that is true of the part up to its last successful save |
| RolloutGate.PromotionMayStopShort | cloud-infra/internal/server/server.go:567-570 | wherever a promotion has a job to add, it may stop with the job added and the campaign not written |
| RolloutGate.PilotCompleteIsTrue | cloud-infra/internal/server/server.go:493-516 | in every state the server can reach, in memory and on file, with handlers that fail or stop anywhere, failed saves and restarts, a campaign that says its pilot is complete holds only succeeded jobs, unless a promotion of it added a job and did not get as far as saving the campaign |
| RolloutGate.OnlyPilotsBeforePromotion | cloud-infra/internal/server/server.go:552-575 | in every such run, a device that has a job of a campaign was in its pilot group at creation, or the campaign was promoted at a moment when it said its pilot was complete and every job it held had succeeded |
| Rollout.QueueAddsOnlyItsJobs | cloud-infra/internal/server/server.go:583-613 | queueing adds jobs of this campaign for these devices and changes nothing else |
| RolloutMeaning.PilotMeans | cloud-infra/internal/server/server.go:498-502 | the pilot group is the first targets, as many as the rounded-up share |
| RolloutMeaning.QueueMeans | cloud-infra/internal/server/server.go:583-613 | when queueing goes through, every target has a job with the key of the campaign and the device, and every new job asks for the campaign's release on its device, for a day, and is queued |
| RolloutMeaning.CreationStateMeans | cloud-infra/internal/server/server.go:508-513 | a created campaign has all queued at once exactly when the rounded-up share is all targets, and otherwise its pilot |
| RolloutMeaning.RemainingMeans | cloud-infra/internal/server/server.go:556-565 | a promotion is for exactly the targets without a job of the campaign |
| RolloutHandlers.Handlers.Create | cloud-infra/internal/server/server.go:476-518 | for every reply, creation had no effect or is a creation of the gate theorem, as far as it came; an error of the campaign itself means that its save failed or the tenant was another; success leaves the pilot queued and everything saved |
| RolloutHandlers.Handlers.StartPilot | cloud-infra/internal/server/server.go:498-516 | the pilot group is queued and the campaign's state written, also when queueing or writing fails |
| RolloutHandlers.Handlers.CheckTargets | cloud-infra/internal/server/server.go:476-490 | accepts exactly when every target is the tenant's device and fits; each refusal names a reason that some target gives |
| RolloutHandlers.Handlers.Promote | cloud-infra/internal/server/server.go:547-580 | acts exactly on a campaign whose pilot is complete and that has targets without a job; then it is a promotion of the gate theorem for every reply, came to its end when it reports success, and never wrote the campaign when queueing failed |
| RolloutHandlers.Handlers.FindRemaining | cloud-infra/internal/server/server.go:556-565 | the targets without a job of the campaign, in order |
| RolloutHandlers.Handlers.Queue | cloud-infra/internal/server/server.go:583-613 | jobs are created one after the other up to the first that fails |
| AgentJobs.Registry.Execute | agent/internal/jobs/jobs.go:72-112 | a valid job that is not known to have succeeded runs if and only if its type is known, its payload is valid and updates are enabled for it; a known success is not run again and a valid replay gets the saved result; what is recorded as succeeded stays so; everything else is answered failed and changes nothing |
| AgentJobs.HandlerMeans | agent/internal/agent/job_handlers.go:59-76 | an OTA job has succeeded, reboots or has failed as the engine's reply says, and has failed without asking it when its payload cannot be read |
| AgentJobs.Registry.RunToEnd | agent/internal/jobs/jobs.go:92-111 | the handler runs between two records of the job's state, and the completed result is what is recorded and returned |
| AgentJobs.Registry.Handle | agent/internal/agent/job_handlers.go:59-76 | only the OTA handler touches the engine's files |
| AgentJobs.Registry.HandleOta | agent/internal/agent/job_handlers.go:59-76 | the result of an OTA job is the engine's reply to that request, and a payload that cannot be read fails |
| AgentJobs.Registry.Load | agent/internal/storage/store.go:226-243 | a saved state is found only if it is in a readable file |
| AgentJobs.Registry.Record | agent/internal/storage/store.go:209-224 | one entry is written over what could be read; a failed write keeps the file or breaks it |
| Fleet.CompletedMeansEveryTarget | cloud-infra/internal/storage/store.go:807-833 | the count that makes a campaign completed is as good as looking at every target: each has its own succeeded job |
| Fleet.CompletedCampaignIsInstalled | cloud-infra/internal/server/server.go:583-613 | end to end, in every run of the fleet: when the server says completed, every targeted device has a completed file for exactly this release and its history shows the checked installation and the healthy commit |
| Fleet.SucceededJobIsInstalled | agent/internal/agent/agent.go:116-137 | the same for every single OTA job that the server says has succeeded |
| Fleet.OneJobPerDevice | cloud-infra/internal/server/server.go:556-610 | under every interleaving of handlers, replays, completions and removals, a campaign holds at most one job for a device |
| Fleet.WorkIsHonest | agent/internal/jobs/jobs.go:72-112 | an agent reports success only for a job whose update completed on it, whether it ran now or earlier |
| OfflineQueue.PruningKeepsTheBest | agent/internal/storage/store.go:168-200 | what pruning drops is too old and not of high priority, or comes no earlier in priority and age than anything it keeps |
| OfflineQueue.PruningIsStable | agent/internal/storage/store.go:177-182 | items of equal priority and time keep their order and are dropped from the end |
| OfflineQueue.OneLongest | agent/internal/storage/store.go:187-198 | what fits is determined: there is only one longest prefix |
| OfflineQueue.SortedIsOrdered | agent/internal/storage/store.go:177-182 | the sort puts high priority and old items first and keeps all items |
| OfflineQueue.StableSortIsUnique | agent/internal/storage/store.go:177-182 | order and the order of ties determine the sorted queue, so there is nothing else a stable sort can leave |
| OfflineQueue.NewestGoesFirst | agent/internal/storage/store.go:187-198 | of any two items of the same priority that have not aged out, the older one is never dropped while the newer one is kept |
| QueuePolicy.PolicyKeptExactlyWhen | agent/internal/storage/store.go:168-200 | pruning drops the oldest low-priority items, as the written policy says, if and only if it need not cut through low-priority items of different ages: the first of them does not fit on top of everything of higher priority, or all items fit, or they are all of one age |
| QueuePolicy.OlderOfTwoStays | agent/internal/storage/store.go:187-198 | two items for which the code and the policy differ |
| QueuePolicy.HighOutlastsAll | agent/internal/storage/store.go:168-200 | when a high-priority item is dropped, only high-priority ones that are no newer are kept |
| QueuePolicy.NormalOutlastsLow | agent/internal/storage/store.go:168-200 | when a normal item is dropped before it is too old, no low one is kept, and no newer normal one |
| QueuePolicy.OldItemsGo | agent/internal/storage/store.go:168-176 | an item older than the limit is kept only if it is of high priority |
| QueuePolicy.RoomForAllKeepsAll | agent/internal/storage/store.go:168-200 | when all items fit, exactly those are kept that are not too old or of high priority |
| QueuePolicy.SortedMeans | agent/internal/storage/store.go:177-182 | high before normal before low, and old before new within each |
| QueuePolicy.KeptMeans | agent/internal/storage/store.go:183-199 | what is kept fits, or is one high-priority item, and the next item would not fit |
| OfflineQueue.FailedFlushRestores | agent/internal/agent/agent.go:147-168 | a failed flush restores the queue from the first unsent item on if and only if the last item taken comes strictly before the first one left |
| OfflineQueue.Queue.Prune | agent/internal/storage/store.go:168-200 | in place: the longest prefix that fits of the sorted items that have not aged out, a lone high item excepted; the drop counter grows by exactly what is gone |
| OfflineQueue.Queue.Enqueue | agent/internal/storage/store.go:54-71 | the item is stamped, appended and the queue pruned, or the file stays as it was |
| OfflineQueue.Queue.Dequeue | agent/internal/storage/store.go:73-86 | takes the requested number of items from the front, or all |
| OfflineQueue.FlushLosesOnlyToAgeAndDisk | agent/internal/agent/agent.go:160-164 | after a failed flush an item is in the queue if and only if it was left there, or was put back and the disk took it, and it has not aged out since; nothing is dropped to make room |
| OfflineQueue.AllPutBack | agent/internal/agent/agent.go:160-164 | when the disk works and nothing ages out meanwhile, all that was not sent is back, in the place the sort gives it |
| OfflineQueue.Queue.Flush | agent/internal/agent/agent.go:147-168 | for every fault of the disk and any clock: sent items leave the queue, the others are put back one by one as far as the disk takes them, and only what has aged out is dropped |
| Download.PartialIsAlwaysAPiece | agent/internal/ota/download.go:40-91 | over any number of interrupted fetches the partial file is a prefix of the artifact and at most one byte over the limit |
| Download.FetchedHasTheDigest | agent/internal/ota/download.go:92-98 | success means the final file has the requested digest, whatever the server sent |
| Download.FetchSucceedsExactlyWhen | agent/internal/ota/download.go:40-98 | given an honest whole reply and a working disk, a fetch succeeds if and only if the range was continued, or everything was sent and the announced length fits on top of the partial file |
| Download.CompletePartialIsStuck | agent/internal/ota/download.go:40-59 | a complete partial file is never finished as long as the server honours ranges |
| Download.Downloader.Fetch | agent/internal/ota/download.go:31-98 | a fetch leaves the files and the outcome of the specification, for every reply and disk fault |
| Download.Downloader.Receive | agent/internal/ota/download.go:66-98 | copying appends or starts over, and the file is checked before it is renamed |
| DownloadRuns.InterruptedKeepsWhatArrived | agent/internal/ota/download.go:66-86 | a broken connection keeps all that arrived, behind what was there |
| DownloadRuns.InterruptionsAddUp | agent/internal/ota/download.go:40-91 | over any number of interruptions the partial file is all that arrived so far |
| DownloadRuns.ResumedDownloadCompletes | agent/internal/ota/download.go:40-98 | interrupted however often, a download that is continued each time and reaches the end puts the whole artifact under its final name |
| DownloadRuns.RefusalsMean | agent/internal/ota/download.go:52-65 | which replies are refused, why, and that they change nothing |
| DownloadRuns.WholeReplyMeans | agent/internal/ota/download.go:80-98 | what a whole reply comes to: too large, of the wrong size, of the wrong digest, which starts over, or in place |
| Passwords.Pbkdf2Sha256 | cloud-infra/internal/auth/password.go:56-78 | the nested loops with in-place exclusive-or compute PBKDF2 of section 5.2 of RFC 8018, for any keyed hash of 32 bytes |
| Passwords.Pbkdf2Starts | cloud-infra/internal/auth/password.go:56-78 | the first blocks and iterations written out, with block numbers as four bytes and exclusive-or by bits |
| Passwords.BigEndianMeans | cloud-infra/internal/auth/password.go:64 | the block number is written most significant byte first |
| Passwords.XorInto | cloud-infra/internal/auth/password.go:71-73 | the inner loop is the bytewise exclusive-or |
| Passwords.DecodeEncode | cloud-infra/internal/auth/password.go:33 | unpadded base64 decodes to what was encoded, and never contains a dollar sign |
| Passwords.LongTestVectors | cloud-infra/internal/auth/password.go:33 | the test vectors of section 10 of RFC 4648, without their padding |
| Passwords.ParsedHash | cloud-infra/internal/auth/password.go:36-53 | the fields of an encoded hash are read back exactly |
| Passwords.Hash | cloud-infra/internal/auth/password.go:27-34 | the encoded hash holds the salt and the derived key |
| Passwords.Verify | cloud-infra/internal/auth/password.go:36-54 | a password is accepted if and only if the hash is well formed and the key derived from it is the stored one |
| Passwords.VerifyAfterHash | cloud-infra/internal/auth/password.go:27-54 | a password is accepted against another one's hash if and only if both derive the same key; so always against its own |
| Limiter.Service.Allow | cloud-infra/internal/assistant/assistant.go:96-113 | a request is accepted if and only if fewer than the limit of all requests ever accepted for its key came in the last minute; other keys are unaffected |
| Limiter.Service.NeverMoreThanLimit | cloud-infra/internal/assistant/assistant.go:96-113 | no minute, wherever it starts, has more accepted requests of a key than the limit |
| Limiter.Decided | cloud-infra/internal/assistant/assistant.go:100-111 | the compacted stamps are enough to decide and to go on |
| Limiter.AfterCounts | cloud-infra/internal/assistant/assistant.go:100-106 | what is left after compacting is as many as the stamps that are strictly later |
| Advisories.Parse | agent/internal/securityscan/trivy.go:57-115 | totals and counts are those of the input, every record is right about all vulnerabilities of its key, records are in order and cut to 500 |
| Advisories.RecordsConserveCounts | agent/internal/securityscan/trivy.go:66-96 | before the cut, the per-package counts of each severity add up to the overall count |
| Advisories.TotalIsSumOfCounts | agent/internal/securityscan/trivy.go:66-69 | the total is the sum of the counts over all severities |
| Advisories.CutKeepsTheWorst | agent/internal/securityscan/trivy.go:102-112 | nothing in a package that is cut is worse than the worst of each package that is kept |
| Advisories.AddedDescribes | agent/internal/securityscan/trivy.go:76-96 | one more vulnerability keeps a record right: highest severity, counts, first fix, first eight advisories |
| Advisories.KeyIsNameAndVersion | agent/internal/securityscan/trivy.go:70 | without NUL in names, a key stands for one package and version |
| Advisories.HighestMeans | agent/internal/securityscan/trivy.go:78-80 | a package is critical if one of its vulnerabilities is, high if one is and none is critical, and so on |
| Advisories.OrderMeans | agent/internal/securityscan/trivy.go:99-105 | all critical packages come first, then high, medium and low, and equally severe ones in order of name |
| Advisories.LessMeans | agent/internal/securityscan/trivy.go:104 | names are ordered by the first letter that differs, a beginning first |
| Advisories.FixMeans | agent/internal/securityscan/trivy.go:75-77 | the fixed version is the first one that any vulnerability of the package names |
| ConfigRoundTrip.LoadAfterRender | agent/internal/config/config.go:142-248 | for every valid configuration with single-line texts, and durations and angles whose texts are read back, reading back its own file gives it again if and only if no text is blank or ends in a colon unless it and the rest of its section are as by default, trimming and unquoting change no text, and the collector names are readable and include the default ones |
| ConfigRoundTrip.CleanConfigurationsComeBack | agent/internal/config/config.go:142-248 | in particular every configuration with clean texts comes back |
| ConfigRoundTrip.EmptyCaFileForgetsTheTimeout | agent/internal/config/config.go:159-167 | with no CA file set and a connection timeout other than the default, reading back the file does not give the configuration |
| ConfigRoundTrip.SchemaIsGood | agent/internal/config/config.go:250-414 | the agent's own sections and keys can all be told apart and written plainly |
| ConfigDefaults.DefaultComesBack | agent/internal/config/config.go:90-248 | the configuration that the agent starts with comes back from its own file |
| ConfigDefaults.SomeCodecServesAll | agent/internal/config/config.go:267-361 | what the round trip asks of the texts of durations and angles can be met, by one way of writing them for all configurations |
| ConfigSections.ReadFields | agent/internal/config/config.go:152-180 | reading a section's lines sets its fields up to the first text that swallows the rest |
| ConfigSections.ReadCollectors | agent/internal/config/config.go:311-315 | reading the collector lines adds only collectors with readable names, changes nothing else, and sets exactly the written ones when all their names are readable |
| ConfigLines.ReadField | agent/internal/config/config.go:169-177 | a field's line sets its key to the text, trimmed and unquoted |
| ConfigLines.ReadSwallowed | agent/internal/config/config.go:160-167 | a blank text, or one that ends in a colon, makes the line a subsection header |
| ConfigLines.IntegerBack | agent/internal/config/config.go:226-230 | every 64-bit integer is read back from its decimal text |
| ConfigMeaning.ServerLinesMean | agent/internal/config/config.go:227 | the lines of the server section, letter by letter, for any values |
| ConfigMeaning.CollectorLinesMean | agent/internal/config/config.go:231-238 | the collectors are listed further in, each true or false |
| ConfigMeaning.ReadBoolMeans | agent/internal/config/config.go:416-418 | on is said by true or yes in any case of letters, or by 1 |
| ConfigMeaning.CommentsMean | agent/internal/config/config.go:155-158 | blank lines and comments change nothing |
| ConfigMeaning.NoColonMeans | agent/internal/config/config.go:169-172 | any other line without a colon is an error |
| ConfigMeaning.UnknownKeysMean | agent/internal/config/config.go:250-414 | keys and sections that are not known are ignored |
| ConfigMeaning.EmptyFileMeans | agent/internal/config/config.go:142-186 | an empty file is the configuration the agent starts with |
| ConfigFile.Load | agent/internal/config/config.go:142-186 | the loop over the lines computes the line-by-line specification, and any error refuses the file |
| ConfigFile.Render | agent/internal/config/config.go:224-248 | the file is the lines of every section and collector, each ended by a line break |

## Left out

- Adapters, artifact and signature verification, free space, request validation and the health command: their outcomes are arbitrary; what matters is when they are asked and what follows.
- Error texts of the engine are the sequence of class and cause they are joined from; the text itself is not modelled.
- The contents of an artifact between verification and installation are not tracked: a changed file on the device's own disk is out of scope.
- JSON persistence is faithful, except that on the device an empty `compatible_from` comes back as nil; a save is atomic (old file or new one). The server's file drops an empty list of a campaign's `compatible_from` too; here a restart restores it as it was.
- Random ids are parameters that have never been given out; time is a parameter or arbitrary.
- Slices shared between the store and returned campaigns: `DeleteDevice` filters `TargetIDs` in place; the model uses values.
- `UpsertDownstream`, downstream records, artifacts, sessions, users, audit and enrollment tokens: not needed by any property here.
- `SaveInventory` releases the lock between check and write; it is modelled as one step.
- The pilot size is computed in floating point; the model uses the exact rounded-up share.
- RolloutHandlers.Handlers.CheckTargets: architecture and capability checks are one arbitrary predicate of the device.
- RolloutGate.PilotCompleteIsTrue: takes each handler, as far as it comes, as one move; that two promotions or a promotion and a completion interleave is covered by RolloutGate.PilotTruthExactlyWhile, which is about single store calls in any order. Jobs that clients queue name no campaign.
- RolloutGate.OnlyPilotsBeforePromotion: the same moves; uniqueness and completion claims (module Fleet) hold for every interleaving of single store calls.
- Fleet.CompletedCampaignIsInstalled: a success is reported by an agent that ran the job; a tenant's device that reports success for a job it never got is outside the model, since the store does not compare devices.
- AgentJobs.Registry.Record: a file that parses only in part is taken as unreadable.
- Truncation of output to 64 KiB counts characters, and the other handlers of the registry have an arbitrary result.
- OfflineQueue.Queue.Flush: malformed lines of the queue file and the reader's line length limit are not modelled.
- Download.PartialIsAlwaysAPiece: bytes that were written are taken to survive a crash in order.
- HMAC-SHA-256 is any function with 32-byte results; constant-time comparison is equality.
- Limiter.Service.Allow: the clock does not go backwards, as Go's monotonic clock guarantees.
- Advisories.Parse: package records are values in a map rather than shared pointers; upper-casing is that of ASCII; the sort is any one that orders by severity and name.
- ConfigRoundTrip.LoadAfterRender: texts of durations and coordinates are assumed to be read back as written, for the values that the configuration holds; the order of the collectors, the reader's line length limit and file handling are not modelled; the switch over sections and keys is a table, and the final validation is any predicate.
- HTTP routing, TLS, authorization, the console, telemetry collectors, gateways and AI providers: input, output and checks of a single branch.
