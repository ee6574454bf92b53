# Model of the AWS Connect core

A Dafny model of the parts of AWS Connect in which ordering, ownership and cleanup decide whether the application keeps its promises, with proofs of those promises.

- **S3 drive mounts** (`DriveProtocol`, `DriveMounts`, `DriveCache`): any number of application processes share, per drive, a lease file, a binding marker and a write-back cache with data that is not in S3 yet. `DriveProtocol` is the step system, with crashes, dying children, user writes and uploads in any interleaving; `DriveMounts` holds `RcloneDriveMount` and `S3DriveService` as classes whose every effect is a step of it; `DriveCache` is the reading of the cache directory and the stack of combine layers.
- **Session Manager sessions** (`SessionProtocol`, `SessionServices`, `SessionAnswers`, `TrackedSessions`, `PluginSessions`, `SessionErrors`): one runner owns plugin processes for EC2 terminals and RDS tunnels, each of which keeps its own table; threads start, poll, expire and stop them concurrently.
- **MFA coordination** (`MfaProtocol`, `MfaCoordination`): two pending maps changed in separate locked regions by many threads under a moving clock.
- **Session refresh** (`SessionRefresh`, `SessionStore`): the refresh window and the accounting of the tokens AWS issues.
- **Execution log** (`Timestamps`, `ExecutionLog`): a table ordered by timestamp text, with retention, a cap and filtered queries, against the unbounded history.
- **S3 transfers** (`S3Planning`, `S3Transfers`, `S3Multipart`, `S3Rename`): batch plans and progress, multipart assembly, and the rename made of three conditional requests (If-Match and If-None-Match, sections 13.1.1 and 13.1.2 of RFC 9110).
- **Secrets** (`SecretDocuments`, `SecretPaths`, `Secrets`, `SensitiveNames`): flattened fields with printed paths against the masked tree.
- **Profile deletion** (`ConnectionLifecycle`): what must be gone before a profile's row goes.

## How concurrency is modelled

Each concurrent core has a value-level step system: a state, the steps (one per lock-guarded region, request or file operation), an invariant with one lemma per clause, and results for every run. The classes follow the source statement by statement and change the shared state only through such steps (`Act`, `Commit`); `Interfere` stands wherever others may run and takes an arbitrary schedule of their steps. Outcomes of AWS, the operating system and user code are arbitrary choices or arbitrary parameters, and ghost records (`did`, `trace`, `calls`, `answers`, `stops`, `effects`, `raised`, `faults`) hold every step and every outcome. Contracts say when a call fails as well as when it succeeds: an error has to be one that was raised on the way, or be explained by a state the run passed through. What a method answers is stated over these records, often as one function of them, and lemmas then say what that function promises.

## What the proofs found

- The edit check of a saved drive gives its lease back before the row is changed. With a second process the row can be deleted while the drive is mounted with unsent data (`DriveProtocol.EditCheckCanGoStale`); the drive stays quiet exactly until someone registers a child (`DriveProtocol.QuietUntilNextChild`).
- The foreground runner hides a failed EndSession exactly when what ended the run is a BaseException other than KeyboardInterrupt (`SessionErrors.ForegroundShowsCleanupUnlessFatal`); the managed start never hides one.
- `AuthenticatedOperationCoordinator` promises to resume an action exactly once; what holds is at most one further run, and at most two in all.
- "A failed delete leaves both copies" holds of a rename exactly if no transmission of the delete arrives, without conflict, while the others have left the revision in place (`S3Rename.PartialLeavesBothIffNoHit`); with one lost answer only the new name is left (`S3Rename.LostDeleteLeavesOneCopy`).
- Clean keys, which are not empty and hold no dot or bracket, make the printed path of a secret field unique (`SecretPaths.FieldPathsAreDistinct`); each other kind of key collides in some document (`SecretPaths.DottedKeysCollide`, `SecretPaths.BracketedKeysCollide`, `SecretPaths.EmptyKeysCollide`). The masked tree and the masked list of a secret agree exactly if no sensitive field is an empty container (`Secrets.MaskedViewAgreesUnlessSecretEmpty`).
- With parts of 8 MiB a file of 83,886,080,001 bytes or more is never uploaded: part 10,001 is refused and the upload aborted once (`S3Multipart.MultipartFile`, `S3Multipart.FirstSizeTooLarge`). An exception that is neither an Exception nor KeyboardInterrupt leaves the multipart upload open.
- The progress of a download goes down when a part is read again after some of it had arrived (`S3Transfers.RisingIffNeverReadAgain`), and when the report of one thread is overtaken by that of another (`S3Transfers.RisingIffNoneOvertaken`).
- A failed write of the shared credentials file leaves no stored session exactly if what it raises is a ConfigurationError (`SessionStore.RefreshIsHonest`).
- A source removed before its copy is reported as a failed copy, one that was replaced as a change (`S3Rename.AnswerOf`).
- Seven of the fourteen sensitive name parts and the regular expression beside them are redundant (`SensitiveNames.DecisivePartsDecide`).

## Verifying

`dafny verify dfyconfig.toml` with Dafny 4.11 checks all files.

## Model

| member | source | states |
|---|---|---|
| `DriveProtocol.UnsentDataStaysCovered` | src/aws_connect/infrastructure/rclone_drive_mount.py:209-219 | In every run of any number of processes, unsent cached data of a drive is covered by a marker, a readable marker names exactly the binding the data was written under, and everything uploaded went to that binding |
| `DriveProtocol.UnsentDataIsKeptOrDelivered` | src/aws_connect/infrastructure/rclone_drive_mount.py:399-407 | No run loses unsent data: each piece is still cached or was uploaded to its own binding |
| `DriveProtocol.ConnectAdoptsOnlyItsOwnData` | src/aws_connect/infrastructure/rclone_drive_mount.py:195-252 | Whenever a connect gets as far as registering its child, all data found in the cache was written under the binding being connected |
| `DriveProtocol.AtMostOneHolder` | src/aws_connect/infrastructure/rclone_drive_mount.py:120-132 | At most one process has a drive mounted or is checking it |
| `DriveProtocol.LeaseIffMounted` | src/aws_connect/infrastructure/rclone_drive_mount.py:428-432 | Between operations a process has the lease of a drive exactly when the drive is in its mount table |
| `DriveProtocol.EditCheckFindsQuietDrive` | src/aws_connect/infrastructure/rclone_drive_mount.py:134-141 | A check that finds neither marker nor dirt holds in a state where no process has the drive mounted and nothing is unsent |
| `DriveProtocol.QuietUntilNextChild` | src/aws_connect/application/s3_drive_service.py:92-97 | A drive found quiet stays quiet in every state of a run exactly if the run registers no child for it |
| `DriveProtocol.EditCheckCanGoStale` | src/aws_connect/application/s3_drive_service.py:92-97 | From any start with two processes there is a run in which one of them disconnects and checks a drive with exactly the steps of the operation, and then deletes the row while the other has the drive mounted with unsent data |
| `DriveProtocol.StepKeepsInv` | src/aws_connect/infrastructure/rclone_drive_mount.py:169-411 | Every single step of a process, a mount child or a user keeps marker cover, lease exactness and the progress facts of each operation |
| `DriveMounts.RcloneDriveMount.Connect` | src/aws_connect/infrastructure/rclone_drive_mount.py:169-306 | On success the drive is mounted, its marker and lease are this process's, and the cache holds only data of its binding; whenever the drive ends up unmounted the lease is not kept; other drives of the process are unaffected. A live mount is kept with one step, anything else is dropped and mounted anew; it fails only because a call raised, the lease or the marker was in the way at a point of the call, or the child died |
| `DriveMounts.RcloneDriveMount.RefreshCredentials` | src/aws_connect/infrastructure/rclone_drive_mount.py:178-194 | Connecting an already mounted drive keeps the mount as it is; only the recorded error is cleared |
| `DriveMounts.RcloneDriveMount.Mount` | src/aws_connect/infrastructure/rclone_drive_mount.py:195-306 | Success takes the lease, truncates and completes the marker, registers the child and sets the mounted flag, in that order and with no other step; the mount has the binding that was read, and no other mount changes |
| `DriveMounts.RcloneDriveMount.Prepare` | src/aws_connect/infrastructure/rclone_drive_mount.py:209-219 | Success took the lease and wrote the whole marker, in that order, and stands before the child; failure leaves nothing held, and comes only from a call that raised, a lease taken at a point of the call, or the marker |
| `DriveMounts.RcloneDriveMount.WriteMarker` | src/aws_connect/infrastructure/rclone_drive_mount.py:220-228 | A marker of another binding, or an unreadable one, refuses and is left as it was; success truncates it and then completes it. A missing marker or the drive's own is never refused unless a call raises |
| `DriveMounts.RcloneDriveMount.BringUp` | src/aws_connect/infrastructure/rclone_drive_mount.py:253-299 | A child that does not come up stays registered with its binding |
| `DriveMounts.RcloneDriveMount.Disconnect` | src/aws_connect/infrastructure/rclone_drive_mount.py:344-411 | If it returns from a mounted drive, the exit of the child was seen and the last steps are: look at the cache; remove the marker exactly if that look was clean; give the lease back. If it raises, mount, lease and marker are kept. For a drive not mounted here a marker is looked after in the same way under the lease, unless the lease is not to be had or the drive has no directory. A live mount whose letter is not free is drained first, and the call fails only because a call raised, the lease was taken, the child did not exit in time or the last look at the cache was dirty |
| `DriveMounts.RcloneDriveMount.StopFailedMount` | src/aws_connect/infrastructure/rclone_drive_mount.py:356-371 | A mount that never came up is dropped by exactly these steps: its exit is seen, the cache is looked at, the marker goes if that was clean, the lease is given back |
| `DriveMounts.RcloneDriveMount.DrainAndUnmount` | src/aws_connect/infrastructure/rclone_drive_mount.py:372-398 | Success ends with: a clean look at the cache, the unmount, a second clean look, the exit of the child, a third clean look, and then the settling of the marker and the lease |
| `DriveMounts.RcloneDriveMount.Finish` | src/aws_connect/infrastructure/rclone_drive_mount.py:399-411 | Success is one look at the cache, the removal of the marker exactly if that look was clean, and then the release; a marker that stays names the binding of the mount |
| `DriveMounts.RcloneDriveMount.ClearCleanPending` | src/aws_connect/infrastructure/rclone_drive_mount.py:420-426 | After one look at the cache, the marker is removed exactly if the look was clean and the removal works; a dirty look leaves it, and a failing removal is the only error |
| `DriveMounts.RcloneDriveMount.ClearUnowned` | src/aws_connect/infrastructure/rclone_drive_mount.py:344-355 | For a drive without a mount here: the lease is taken, the cache looked at, the marker removed exactly if that was clean, and the lease given back; or the call fails because the lease is taken; or at a point of the call the drive had no directory |
| `DriveMounts.RcloneDriveMount.AssertEditable` | src/aws_connect/infrastructure/rclone_drive_mount.py:134-141 | Success returns a point of the run, within this call, at which nobody had the drive mounted and nothing was unsent. A drive mounted here is refused as active, one without a directory passes; under the lease it passes exactly if there is no marker and the look at the cache is clean; without the lease it is owned elsewhere |
| `DriveMounts.RcloneDriveMount.Drop` | src/aws_connect/infrastructure/rclone_drive_mount.py:428-432 | Releasing a mount removes it from the table and frees its lease together |
| `DriveMounts.S3DriveService.Save` | src/aws_connect/application/s3_drive_service.py:43-53 | A change of a saved drive is written only after a point of this call at which the drive was quiet, and it still is unless a child was registered since; the owner profile stays; a refused save changes no row. It is refused only if a call raises, the drive is gone or has another owner, or the edit check refuses |
| `DriveMounts.S3DriveService.Connect` | src/aws_connect/application/s3_drive_service.py:55-64 | Refuses while shutting down; on success the drive is mounted and its cache holds only data of its binding. It fails only without the row, while shutting down, or for one of the reasons of a mount |
| `DriveMounts.S3DriveService.Delete` | src/aws_connect/application/s3_drive_service.py:92-97 | The row goes only when the drive is not mounted here and was quiet at a point of this call, and it still is unless a child was registered since; otherwise no row changes. It is refused without the row, by the disconnect that failed, by the edit check, or by the store, and for nothing else |
| `DriveMounts.S3DriveService.Stop` | src/aws_connect/application/s3_drive_service.py:117-126 | Every listed drive is disconnected once, in order, whatever the ones before it did; the error raised is the earliest among the answers of exactly these disconnects, and there is none exactly if all succeed; other drives keep their mounts. Each of the answers is explained by the steps of its disconnect, the errors its calls raised and the state it found |
| `DriveMounts.S3DriveService.PrepareProfileDeletion` | src/aws_connect/application/s3_drive_service.py:99-106 | On success no drive the profile had is mounted here, and each drive in the table as it stood at a point of this call was quiet at a later point and still is unless a child was registered since; mounts of other profiles stay. It fails with the earliest failing disconnect or, if there is none, with the refusal of one edit check |
| `DriveMounts.S3DriveService.Shutdown` | src/aws_connect/application/s3_drive_service.py:108-115 | The closing flag stays set exactly if every drive could be stopped, and then none of the saved drives is mounted here |
| `DriveCache.CacheIsDirty` | src/aws_connect/infrastructure/rclone_drive_mount.py:84-100 | Reads clean exactly if every metadata file is small and says "Dirty": false, or there is neither metadata nor a file; with an honest cache clean means nothing is unsent |
| `DriveCache.RemoteEnvironment` | src/aws_connect/infrastructure/rclone_drive_mount.py:71-81 | The stack of combine layers leads exactly the paths below the local folder into the bucket prefix |
| `SessionProtocol.RegistriesAgree` | src/aws_connect/application/ssm_session.py:175-182 | For every interleaving: when no thread is inside a call, the operations the runner owns are the disjoint union of those EC2 and RDS track |
| `SessionProtocol.FreeTunnelTableIsOwned` | src/aws_connect/application/rds_tunnel_service.py:346-386 | Whoever finds the tunnel lock free finds only owned operations in the tunnel table |
| `SessionProtocol.EachSessionIsEndedOnce` | src/aws_connect/application/ssm_session.py:343-354 | Every session StartSession returned has EndSession attempted zero times while it is owned or being launched, and exactly once from then on |
| `SessionProtocol.StepKeepsInv` | src/aws_connect/application/ssm_session.py:201-308 | Every guarded region of runner and services keeps ownership, tables, attempts and pending duties in agreement |
| `SessionProtocol.OtherThreadStep` | src/aws_connect/application/ssm_session.py:238-308 | What a thread may rely on while others act: its registration stays, tracked operations only move towards being gone, its lock keeps the tunnel table |
| `SessionServices.ManagedSsmSessionRunner.Start` | src/aws_connect/application/ssm_session.py:184-236 | On success the session is owned; on failure nothing is owned and a session that was started has been ended exactly once, and a failed EndSession shows in the exception, or in the note added to that of a failing observer. It succeeds exactly if nothing is raised on the way, and otherwise raises the first thing that was |
| `SessionServices.StartAnswerIsHonest` | src/aws_connect/application/ssm_session.py:184-236 | A start succeeds exactly if no check, call or observer raises; otherwise the caller gets the first of what they raise, a broken launch with its EndSession |
| `SessionServices.ManagedSsmSessionRunner.Reclaim` | src/aws_connect/application/ssm_session.py:222-230 | A failing observer leaves neither process ownership nor an unended session; the note names the first failure among the recorded calls and the answer of EndSession |
| `SessionServices.ManagedSsmSessionRunner.StatusOwned` | src/aws_connect/application/ssm_session.py:238-275 | The answer is the one specified for the recorded calls on the process and the recorded answer of EndSession; unless it is RUNNING, the session is ended once and disowned |
| `SessionAnswers.StatusAnswerIsHonest` | src/aws_connect/application/ssm_session.py:238-275 | SUCCEEDED exactly with exit code 0 seen, and EndSession successful or its failure carried as the warning of an external terminal; an exit code that was seen is shown; FAILED reports every failure there was, the earliest first; never CANCELLED |
| `SessionServices.ManagedSsmSessionRunner.StopOwned` | src/aws_connect/application/ssm_session.py:277-308 | The answer is the one specified for the recorded calls on the process and the recorded answer of EndSession; the session is ended once and disowned in any case |
| `SessionAnswers.StopAnswerIsHonest` | src/aws_connect/application/ssm_session.py:277-308 | SUCCEEDED exactly if the process had ended with 0 and EndSession succeeded, CANCELLED exactly if it ran, its exit was then observed in the ordinary sequence and EndSession succeeded; otherwise FAILED, with every failure reported and the earliest as primary; the exit code is the last one seen |
| `SessionServices.ManagedSsmSessionRunner.Status` | src/aws_connect/application/ssm_session.py:238-275 | The poll a service makes: not found exactly without an owner, otherwise the specified answer, with the service left to untrack an ended session |
| `SessionServices.ManagedSsmSessionRunner.Stop` | src/aws_connect/application/ssm_session.py:277-308 | The stop a service makes: not found exactly without an owner, otherwise the specified answer; the runner owns the session no longer either way |
| `SessionServices.ManagedSsmSessionRunner.CaptureEndError` | src/aws_connect/application/ssm_session.py:343-354 | EndSession is sent exactly if the session was not marked ended before, and its answer becomes the error |
| `SessionErrors.CombineReportsEverything` | src/aws_connect/application/ssm_session.py:411-430 | Combining loses no error: the first one present is primary, every other one is spelled out in its cause |
| `SessionErrors.FailedStartShowsCleanup` | src/aws_connect/application/ssm_session.py:310-341 | However the launch of a managed start fails, a failed EndSession can be read off what is raised |
| `SessionErrors.FailedStartKeepsThePrimary` | src/aws_connect/application/ssm_session.py:310-341 | What broke the launch off is raised itself unless it is an unexpected Exception, which is converted, or EndSession failed too; interrupts and other BaseExceptions only gain a note |
| `SessionErrors.ForegroundShowsCleanupUnlessFatal` | src/aws_connect/application/ssm_session.py:132-165 | The foreground runner shows a failed EndSession for every kind of exception except exactly the other BaseExceptions |
| `SessionErrors.ForegroundKeepsThePrimary` | src/aws_connect/application/ssm_session.py:132-165 | What broke the run off is raised itself unless it is an unexpected Exception, which is converted, or EndSession failed too, which is then added |
| `PluginSessions.ForegroundSsmSessionRunner.Run` | src/aws_connect/application/ssm_session.py:64-104 | On every exit at most one session was started and EndSession was attempted for it exactly once; what is answered is determined by the recorded calls, the recorded answer of EndSession and the last report. A session is started unless something breaks the run off before, the plugin is not ready or StartSession raises, and then just that is raised |
| `PluginSessions.ForegroundSsmSessionRunner.RunIsHonest` | src/aws_connect/application/ssm_session.py:64-104 | Success exactly if the process was seen through, EndSession succeeded and the last report did not raise; every other ending raises its own failure, and a failed EndSession shows unless the run was broken off by a fatal exception |
| `PluginSessions.AttendedIsHonest` | src/aws_connect/application/ssm_session.py:85-130 | A run ends well exactly if exit code 0 of its one process was seen or, once time was up, a stop without a failing call saw the exit; otherwise it raises what broke it off, or that the code was not 0, or that the stop failed |
| `PluginSessions.ForegroundSsmSessionRunner.RunBounded` | src/aws_connect/application/ssm_session.py:106-130 | The answer follows from the recorded wait and stop of this process alone; an exit code it returns is the one the process ended with |
| `PluginSessions.ForegroundSsmSessionRunner.StopAfter` | src/aws_connect/application/ssm_session.py:115-130 | After a broken-off wait the process is stopped, and what is raised follows from the break and that stop |
| `PluginSessions.AfterBreakShowsStop` | src/aws_connect/application/ssm_session.py:115-130 | A failed stop after a broken-off wait shows in what is raised; an application error only gains the mention of a failed cleanup |
| `PluginSessions.BreakKeepsThePrimary` | src/aws_connect/application/ssm_session.py:115-130 | If the stop worked, what broke the wait off is raised itself; otherwise an application error keeps its code and cause, and any other kind is named |
| `PluginSessions.PluginHost.StopProcess` | src/aws_connect/application/ssm_session.py:433-457 | The verdict follows from the recorded signals and waits; a code it reports is the one the process ended with |
| `PluginSessions.StopVerdictIsHonest` | src/aws_connect/application/ssm_session.py:433-457 | No error exactly if the exit was seen and no call failed, but that the first wait may have run out of time; otherwise the error starts with the call that broke the sequence and names every recovery call that failed; an exit code is there exactly if the last wait saw it |
| `TrackedSessions.Ec2Service.ConnectExternal` | src/aws_connect/application/ec2_service.py:300-321 | On success the session is owned and tracked for its profile; on failure it is not owned and, if started, ended once; which of the two follows from what the calls of the start come back with |
| `TrackedSessions.Ec2Service.Reap` | src/aws_connect/application/ec2_service.py:350-395 | Every session tracked at the start is reported, with the state and error that the calls made on its process and the answer of EndSession come to; one reported as anything but running is untracked, disowned and ended once, although others stop sessions meanwhile |
| `TrackedSessions.Ec2Service.StopExternal` | src/aws_connect/application/ec2_service.py:397-419 | A tracked session is gone afterwards, whatever the stop raised; a handle is the specified answer for its process and its EndSession; an unknown session is refused without effect |
| `TrackedSessions.Ec2Service.StopExternalForProfile` | src/aws_connect/application/ec2_service.py:421-441 | Each session the profile had is stopped once and is gone even if stops fail, no operation of another profile is touched; what is raised is the earliest failure among the records of these stops, each of which is what its calls and the answer of EndSession made of it; without a failure the handles are returned |
| `TrackedSessions.RdsTunnelService.StartManaged` | src/aws_connect/application/rds_tunnel_service.py:297-344 | However it ends, the tunnel is owned exactly if it is in the table; a failed start was ended once, and the tunnel is in the table exactly if the start succeeded, whether or not its row could then be touched |
| `TrackedSessions.RdsTunnelService.StopLocked` | src/aws_connect/application/rds_tunnel_service.py:388-424 | Under the lock exactly this tunnel leaves the table and is gone, also when the stop raises; it raises the error its handle carries |
| `TrackedSessions.RdsTunnelService.Stop` | src/aws_connect/application/rds_tunnel_service.py:388-424 | A tunnel listed when the call began is gone afterwards |
| `TrackedSessions.RdsTunnelService.CheckOne` | src/aws_connect/application/rds_tunnel_service.py:357-385 | A tunnel due at a clock reading of this call is stopped, another one polled, and the report is what these calls and the answer of EndSession come to; the tunnel stays listed exactly if it is reported as running |
| `TrackedSessions.RdsTunnelService.ActiveTunnels` | src/aws_connect/application/rds_tunnel_service.py:346-386 | Of the table as it was when the lock was taken, the tunnels reported as ended are gone and off the table and no others; each report is what the poll or the expiry stop of its process came to, and the clock readings that decide between the two follow the order of the reports |
| `TrackedSessions.RdsTunnelService.StopAll` | src/aws_connect/application/rds_tunnel_service.py:426-443 | Of the table as it was when the lock was taken, exactly the matching tunnels leave it and are gone even if stops fail; what is raised is the earliest failure among the records of these stops, each of which is what its calls and the answer of EndSession made of it |
| `MfaProtocol.WaitingActionsCanBeResumed` | src/aws_connect/application/authenticated_operation.py:65-79 | Both pending maps stay within 128 entries, and a waiting action whose time is not up has its refresh pending with the same expiry |
| `MfaProtocol.NoOrphans` | src/aws_connect/application/authenticated_operation.py:113-133 | When no call is in flight every pending refresh not started by a direct client has its action waiting, so rejections, cancels, sweeps and failed resumes leave no orphan |
| `MfaProtocol.SecondRunIsGranted` | src/aws_connect/application/authenticated_operation.py:89-111 | An action runs at most twice, the second time only if its first run asked for MFA and a refresh for the same operation succeeded: a session was found or renewed without a code, or the refresh with a code offered before the deadline of a challenge made for this action answered that it is fine |
| `MfaProtocol.RunTwiceIsOver` | src/aws_connect/application/authenticated_operation.py:89-111 | After a second run no table entry and no thread could run the action again |
| `MfaProtocol.StepKeepsInv` | src/aws_connect/application/authentication_service.py:282-371 | Every locked region of both coordinators, every clock reading and every run of an action keeps the invariant behind these results |
| `MfaCoordination.OperationCoordinator.StartRefresh` | src/aws_connect/application/authentication_service.py:282-319 | The answer is decided by the look at the session: refreshed exactly if one is there without a code, a challenge under a new id only if a code is needed, and otherwise the action is over after one run |
| `MfaCoordination.OperationCoordinator.InsertPending` | src/aws_connect/application/authentication_service.py:309-318 | Expired entries are swept first, then the refresh is kept exactly if there is room |
| `MfaCoordination.OperationCoordinator.Resume` | src/aws_connect/application/authentication_service.py:321-349 | Grants exactly a refresh that succeeded with this code for this id, and reports a refused code as refused; without a pending entry, without a code, or after the deadline nothing is submitted; in every case the entry is consumed |
| `MfaCoordination.OperationCoordinator.Cancel` | src/aws_connect/application/authentication_service.py:351-365 | Exactly this entry leaves the inner map |
| `MfaCoordination.AuthenticatedOperationCoordinator.SweepExpired` | src/aws_connect/application/authenticated_operation.py:113-126 | No action whose time was up when the sweep began is still waiting when it ends, except the excluded one |
| `MfaCoordination.AuthenticatedOperationCoordinator.StartLong` | src/aws_connect/application/authenticated_operation.py:44-87 | A challenge is returned only if the action asked for MFA and a code is needed, and then it has run once and waits under its id; otherwise it is over, after a second run exactly if a session was there without a code. The answer is how its last run ended, unless the refresh failed |
| `MfaCoordination.AuthenticatedOperationCoordinator.Resume` | src/aws_connect/application/authenticated_operation.py:89-111 | For any id: it waits no longer whatever is answered. The action that waited under it runs exactly if the refresh with this very code was begun in time and succeeded, and then for the last time; otherwise it has run once and is over. The refresh is begun unless there is no code, the time is up or it is no longer pending, and the answer tells these apart. After a second run the answer is how that ended |
| `MfaCoordination.AuthenticatedOperationCoordinator.Cancel` | src/aws_connect/application/authenticated_operation.py:128-133 | For any id that is not just being issued: it is in neither map afterwards |
| `SessionRefresh.JustVerifiedIsNotDue` | src/aws_connect/domain/aws_profile.py:120-129 | A session that was just verified and has not expired is never due |
| `SessionRefresh.DueByExpiry` | src/aws_connect/domain/aws_profile.py:120-129 | A session is due by its expiry |
| `SessionRefresh.OnceDueStaysDue` | src/aws_connect/domain/aws_profile.py:120-129 | Once due, always due |
| `SessionRefresh.DueFromThenOn` | src/aws_connect/domain/aws_profile.py:120-129 | A live session is due exactly if no more than thirty minutes are left to it, and no more than a tenth of its life rounded to the nearest microsecond, halfway to even |
| `SessionRefresh.TokensAreAccountedFor` | src/aws_connect/application/authentication_service.py:132-193 | Over any stretch of any run AWS issues one token of a profile for each one lost, and one more only if none was in hand before and one is afterwards |
| `SessionRefresh.AtMostOneTokenWhileReusable` | src/aws_connect/application/authentication_service.py:144-148 | Over any stretch of any run in which the stored session is never due and no token is dropped, refused, unsaved or unwritten, at most one token is issued, and none if there already is one |
| `SessionStore.AuthenticationService.Refresh` | src/aws_connect/application/authentication_service.py:132-189 | An unusable code is refused first. Otherwise what is raised follows from the last call made, and the steps taken on the store from all of them; success says whether the stored session can be used |
| `SessionStore.RefreshIsHonest` | src/aws_connect/application/authentication_service.py:132-193 | A token is asked for only without a session just confirmed to be the owner's; it is stored exactly if it was identified as the owner's and saved, and taken away again exactly if the shared file raised a ConfigurationError |
| `SessionStore.HowARefreshEnds` | src/aws_connect/application/authentication_service.py:132-193 | A refresh raises nothing exactly if the stored session was confirmed, or a new token was issued, confirmed, saved and, if there is a shared file, written; a mismatch and a failed shared file are raised exactly in their own cases, and only a refused session is replaced |
| `SessionStore.AuthenticationService.Check` | src/aws_connect/application/authentication_service.py:228-250 | Under the lock AWS is asked exactly if there is a session that is not due; one confirmed to be the owner's is kept, one refused is deleted, and any other exception leaves it |
| `SessionStore.AuthenticationService.IssueAndStore` | src/aws_connect/application/authentication_service.py:149-180 | The token is put in the store exactly if AWS takes its bearer for the owner and it could be saved; otherwise it is lost and the failure of the last call is raised |
| `SessionStore.AuthenticationService.Status` | src/aws_connect/application/authentication_service.py:76-99 | Answers whether the stored session can be used, and deletes one that is due |
| `Timestamps.TextOrderIsTimeOrder` | src/aws_connect/infrastructure/sqlite_profile_store.py:359 | Byte order of the stored text is chronological order for all UTC times, although the fraction is left out when it is zero |
| `Timestamps.IsoIsInjective` | src/aws_connect/infrastructure/sqlite_profile_store.py:359 | Different times have different texts |
| `Timestamps.FractionOrder` | src/aws_connect/infrastructure/sqlite_profile_store.py:359 | The optional fraction sorts correctly because "+" sorts before "." |
| `Timestamps.EarlierIsByInstant` | src/aws_connect/infrastructure/sqlite_profile_store.py:385 | Comparing calendar fields is comparing instants |
| `ExecutionLog.ExecutionLogStore.Append` | src/aws_connect/infrastructure/sqlite_profile_store.py:377-391 | After each append the table is the newest 10,000 of what the cutoffs alone would have left of everything ever appended |
| `ExecutionLog.AppendRefines` | src/aws_connect/infrastructure/sqlite_profile_store.py:385-391 | Capping at every append and expiring later loses nothing that an uncapped table would still show among its newest rows |
| `ExecutionLog.ExecutionLogStore.TableOfSteadyClock` | src/aws_connect/infrastructure/sqlite_profile_store.py:377-391 | With cutoffs that never go back the table is the newest 10,000 of all events not older than the last cutoff |
| `ExecutionLog.SurvivorOutlives` | src/aws_connect/infrastructure/sqlite_profile_store.py:385-386 | Every survivor of the unbounded history is a row that no cutoff since its own append exceeds |
| `ExecutionLog.OutlivingSurvives` | src/aws_connect/infrastructure/sqlite_profile_store.py:385-386 | Every such row is a survivor |
| `ExecutionLog.SteadyCutoffs` | src/aws_connect/infrastructure/sqlite_profile_store.py:385 | A clock that does not go back gives cutoff texts that do not go back |
| `ExecutionLog.RetentionIsThirtyDays` | src/aws_connect/domain/execution_log.py:7 | Comparing the two texts decides whether an event is at most thirty days old |
| `ExecutionLog.OverflowLeavesNewest` | src/aws_connect/infrastructure/sqlite_profile_store.py:387-391 | Deleting the rows past the offset leaves exactly the newest ones |
| `ExecutionLog.TakenAreNewer` | src/aws_connect/infrastructure/sqlite_profile_store.py:387-391 | Whatever the cap drops is older than everything it keeps |
| `ExecutionLog.KeepSorted` | src/aws_connect/infrastructure/sqlite_profile_store.py:433-441 | Selecting rows and then ordering them is ordering them and then selecting |
| `ExecutionLog.Clauses` | src/aws_connect/infrastructure/sqlite_profile_store.py:396-432 | The clause list, built by appending, selects exactly the rows the filter asks for: not before the cutoff nor before the requested start, in the chosen columns, and with the term in some column in any case of its letters |
| `ExecutionLog.ExecutionLogStore.Query` | src/aws_connect/infrastructure/sqlite_profile_store.py:393-441 | The answer is the newest of the matching rows, newest first: all of them if the limit allows, otherwise as many as the limit, and one for a limit below one; and it is a newest-first prefix of the same question put to the unbounded history |
| `S3Rename.RenameInBucket` | src/aws_connect/infrastructure/aws_s3_gateway.py:129-171 | For every schedule of other writers, lost requests and lost answers, the rename leaves the objects, the changes and the error specified for that schedule |
| `S3Rename.RenameIsSafe` | src/aws_connect/infrastructure/aws_s3_gateway.py:129-171 | For every schedule: the target is only ever created where there was nothing, the source loses only a revision with the entity tag that was seen and only after its copy, and success means that both happened; if equal tags mean equal bodies, the bytes of every removed revision were stored at the target by one of the copies |
| `S3Rename.HowARenameEnds` | src/aws_connect/infrastructure/aws_s3_gateway.py:129-171 | For every schedule: the rename succeeds exactly if the head is answered, the source is there and not over 5 GiB, and the transmissions of the copy and of the delete that are answered are carried out; and each of its errors has its own condition on the schedule |
| `S3Rename.UndisturbedRenameMoves` | src/aws_connect/infrastructure/aws_s3_gateway.py:129-171 | With nobody else writing and every request answered, the object moves: same bytes, new name, and nothing else changes |
| `S3Rename.PartialLeavesBothIffNoHit` | src/aws_connect/infrastructure/aws_s3_gateway.py:161-170 | After the partial error the source is untouched exactly if no transmission of the delete arrives, without conflict, while the others have left the revision in place; likewise the target after a failed copy |
| `S3Rename.EffectsIffHit` | src/aws_connect/infrastructure/aws_s3_gateway.py:143-162 | A request changes something exactly if one of its transmissions arrives at preconditions the others have left true, which says nothing about its answer |
| `S3Rename.TheAnsweredOneDecides` | src/aws_connect/infrastructure/aws_s3_gateway.py:143-162 | A request fails without an answer exactly if none of its transmissions is answered; otherwise the answered one decides between accepted, refused and not found |
| `S3Rename.CopiesStoreTheBody` | src/aws_connect/infrastructure/aws_s3_gateway.py:143-152 | A copy takes the body the source has when it is carried out, and by If-Match that is the body that was seen |
| `S3Rename.LostDeleteLeavesOneCopy` | src/aws_connect/infrastructure/aws_s3_gateway.py:162-170 | A schedule with one lost answer ends in the partial error with only the new name left |
| `S3Rename.LostCopyIsReportedAsChange` | src/aws_connect/infrastructure/aws_s3_gateway.py:143-157 | A schedule in which a copy carried out is sent again ends in the changed error with the copy in place |
| `S3Rename.RenameObject` | src/aws_connect/application/s3_service.py:212-269 | The new key stays in the folder of the old one; an invalid name, an existing target or an unchanged key sends no change |
| `S3Rename.Bucket.Send` | src/aws_connect/infrastructure/aws_s3_gateway.py:143-162 | Sending a conditional request until it is answered has the effects specified for the schedule |
| `S3Multipart.MultipartFile` | src/aws_connect/infrastructure/aws_s3_gateway.py:266-329 | Success assembles exactly the file, of at most 10,000 full parts, with progress adding up to its size; a failure after creation attempts exactly one abort unless the exception escapes every handler, one before it none; illegal bounds are rejected before any request. It fails exactly if something is raised, and the error tells the kind, the action then under way, and whether the abort failed |
| `S3Multipart.PartSizes` | src/aws_connect/infrastructure/aws_s3_gateway.py:290-305 | All parts but the last are full and the last is not empty |
| `S3Multipart.FirstPartsAssemble` | src/aws_connect/infrastructure/aws_s3_gateway.py:290-311 | The first n parts concatenate to the beginning of the file |
| `S3Multipart.PartNumbersWithinLimit` | src/aws_connect/infrastructure/aws_s3_gateway.py:290 | A file takes at most the 10,000 parts of the service exactly if it is no longer than 10,000 full parts |
| `S3Multipart.FirstSizeTooLarge` | src/aws_connect/application/s3_service.py:27 | With parts of 8 MiB the first size that needs a part too many is 83,886,080,001 bytes |
| `S3Transfers.Download` | src/aws_connect/application/s3_service.py:523-609 | On success every destination was looked for once, in order; the items skipped are exactly the ones found while skipping, and the files put in place are those of all others, in order; bytes is the sum of the callbacks. When every object has its planned size, progress stays within the total and bytes is the transferred size. A file is replaced only if it existed at planning time and only to overwrite. It fails exactly if something is raised or a destination is taken that must not be replaced: one found there although absent at planning time, or one that appears during the download without leave to replace it |
| `S3Transfers.DownloadFile` | src/aws_connect/infrastructure/aws_s3_gateway.py:173-235 | A finished download is put in place, replacing a file only if allowed; a failed one puts nothing in place, except where the temporary name could not be removed after a hard link to it was made |
| `S3Transfers.Upload` | src/aws_connect/application/s3_service.py:612-765 | On success every chosen item was looked for once unless objects are overwritten; the objects stored are those of the transferred items, in order, and skipped are the ones known to exist and the ones found at their turn; bytes and progress as above; without overwriting only objects absent at planning time are stored. It fails exactly if something is raised on the way |
| `S3Transfers.PickedIff` | src/aws_connect/application/s3_service.py:553-566 | The items skipped are exactly those found while skipping, those transferred all others, and each is counted once |
| `S3Transfers.Stream` | src/aws_connect/infrastructure/aws_s3_gateway.py:29-43 | The callbacks of any number of threads take turns in adding their bytes and in telling the observer; the turns taken are a prefix of the schedule, all of them exactly on success, and the count is always the sum of what was added |
| `S3Transfers.RisingIffNoneOvertaken` | src/aws_connect/application/s3_service.py:536-545 | As long as callbacks only add bytes, the reported progress never goes down exactly if no callback tells the observer after one that added its bytes later |
| `S3Transfers.RisingIffNeverReadAgain` | src/aws_connect/infrastructure/aws_s3_gateway.py:173-205 | With one thread it never goes down exactly if no try of the download broke off after it had read something |
| `S3Transfers.OnlyTheLastTryCounts` | src/aws_connect/infrastructure/aws_s3_gateway.py:173-205 | Whatever was read in vain, the callbacks add up to the bytes of the try that went through |
| `S3Planning.PlanDownload` | src/aws_connect/application/s3_service.py:476-520 | The plan holds each downloadable key once, with pairwise distinct destinations, and marks the ones that existed. There is a plan exactly if something can be downloaded and no candidate offends; otherwise the first offence is raised |
| `S3Planning.PlanUpload` | src/aws_connect/application/s3_service.py:283-364 | A file selected twice is planned once, two files never share a key, and keys that existed are marked. There is a plan exactly if there is a file and none is refused; otherwise the first refusal is raised |
| `S3Planning.ResolvePolicy` | src/aws_connect/application/s3_service.py:768-786 | The policy agrees with every argument given, and fails exactly if there is none or they conflict |
| `SecretDocuments.MaskedTreeShowsTheFields` | src/aws_connect/application/secrets_service.py:548-579 | The n-th scalar of the masked tree is the masked value of the n-th scalar field, for every document |
| `SecretDocuments.MaskingHidesSecretsOnly` | src/aws_connect/application/secrets_service.py:571-579 | Two documents are masked alike exactly if they have the same shape and differ only in scalars below sensitive keys |
| `SecretDocuments.MaskedIsSameButSecrets` | src/aws_connect/application/secrets_service.py:571-579 | Masking keeps the shape, the keys and every scalar that is not below a sensitive key |
| `SecretDocuments.MaskingIsIdempotent` | src/aws_connect/application/secrets_service.py:571-579 | Masking twice is masking once |
| `SecretPaths.FieldsAreLeaves` | src/aws_connect/application/secrets_service.py:548-568 | The flattened fields are the leaves of the document in order, each with its access path printed |
| `SecretPaths.LeavesLead` | src/aws_connect/application/secrets_service.py:548-568 | Every leaf is listed once, is what its access path leads to, and is sensitive exactly if a key above it is |
| `SecretPaths.FoundLeafIsListed` | src/aws_connect/application/secrets_service.py:548-568 | Wherever an access path leads to a leaf, that leaf is listed |
| `SecretPaths.PathReadsBack` | src/aws_connect/application/secrets_service.py:555-563 | With clean keys a printed path reads back as its access path |
| `SecretPaths.FieldPathsAreDistinct` | src/aws_connect/application/secrets_service.py:106-113 | With clean keys the printed paths of a document are pairwise distinct and each leads to its own value |
| `SecretPaths.FieldReturnsItsLeaf` | src/aws_connect/application/secrets_service.py:106-113 | field(path) returns the leaf its path was printed for, with its sensitivity |
| `SecretPaths.DottedKeysCollide` | src/aws_connect/application/secrets_service.py:554 | For any clean keys a and b there is a document in which the key a.b and b below a share a path, and field(path) returns the first for both |
| `SecretPaths.BracketedKeysCollide` | src/aws_connect/application/secrets_service.py:563 | For any clean key a and any index i there is a document in which the key a[i] and item i of the list at a share a path, with the same effect |
| `SecretPaths.EmptyKeysCollide` | src/aws_connect/application/secrets_service.py:554 | For any clean key a there is a document in which a below an empty key and a itself share a path, with the same effect |
| `Secrets.Flatten` | src/aws_connect/application/secrets_service.py:548-568 | The in-place recursion appends exactly the specified fields to what was there |
| `Secrets.Parse` | src/aws_connect/application/secrets_service.py:515-545 | Plain text and scalar documents are one sensitive field; any other document is its flattened fields |
| `Secrets.MaskedViewShowsTheFields` | src/aws_connect/application/secrets_service.py:86-94 | The masked JSON view and the field list show the same scalars |
| `SecretDocuments.TreeShowsListUnlessSecretEmpty` | src/aws_connect/application/secrets_service.py:548-579 | For every document: the leaves of the masked tree, empty containers among them, are the masked values of the fields exactly if no sensitive field is an empty container |
| `Secrets.MaskedViewAgreesUnlessSecretEmpty` | src/aws_connect/application/secrets_service.py:86-94 | The same of the two views of a retrieved secret |
| `Secrets.ParsedFieldReturnsItsLeaf` | src/aws_connect/application/secrets_service.py:106-113 | field(path) on a retrieved secret returns the leaf its path was printed for, scalar documents and plain text included |
| `Secrets.EmptySecretIsShownInTheTree` | src/aws_connect/application/secrets_service.py:571-579 | The smallest document on which the two views differ: an empty list below a sensitive key |
| `Secrets.MaskHidesBelowSensitiveKeys` | src/aws_connect/infrastructure/masking.py:23-39 | Diagnostics are masked alike exactly if they differ only below sensitive keys, shape included, and in texts masked alike |
| `Secrets.MaskIsIdempotent` | src/aws_connect/infrastructure/masking.py:23-39 | Masking a masked value changes nothing if masking a masked text does not |
| `SensitiveNames.DecisivePartsDecide` | src/aws_connect/domain/sensitive_data.py:8-31 | A name is sensitive exactly if one of seven words occurs in it, in any case and with hyphens or underscores; the other seven parts and the regular expression add no name |
| `SensitiveNames.SpellingDoesNotMatter` | src/aws_connect/domain/sensitive_data.py:24-31 | Names that differ only in the case of letters or in hyphen against underscore, character by character, get the same answer |
| `ConnectionLifecycle.ProfileConnectionLifecycleService.Active` | src/aws_connect/application/connection_lifecycle.py:49-76 | The counts are what the polls reported as running and the drives not shown as disconnected, the failure raised is the first one they reported, and each report is backed by the calls made for it; if neither poll finds a running session or tunnel, everything of the profile tracked afterwards was started after the call began |
| `ConnectionLifecycle.ProfileConnectionLifecycleService.StopSessions` | src/aws_connect/application/connection_lifecycle.py:88-98 | Both tables are rid of everything the profile had, whatever fails; what is raised is the earliest failure among the records of the EC2 stops, or else of the RDS stops |
| `ConnectionLifecycle.ProfileConnectionLifecycleService.Delete` | src/aws_connect/application/connection_lifecycle.py:78-101 | When the row goes, every session and tunnel of the profile still tracked has a start that was in flight or came later, no drive it had is mounted here, and each drive in the table as it stood at a point of the call was quiet at a later point and still is unless a child was registered since; otherwise the row stays, for the first of these reasons: a poll, active connections, a stop, the drives, the store |
| `ConnectionLifecycle.ObjectionIffActive` | src/aws_connect/application/connection_lifecycle.py:78-87 | Nothing stands in the way of a deletion exactly if no poll reports a failure, and nothing is running or it may be stopped |
| `ConnectionLifecycle.FirstReportedIsFirst` | src/aws_connect/application/connection_lifecycle.py:62-68 | The failure raised is the profile's with the smallest index |
| `ConnectionLifecycle.Running` | src/aws_connect/application/connection_lifecycle.py:69-75 | The count is the number of the profile's reports that say running |
| `Wrappers.FirstFailure` | src/aws_connect/application/ec2_service.py:429-440 | A loop that attempts everything raises the failure with the smallest index, and none exactly if all succeed |

## Left out

- `ConnectionLifecycle.ProfileConnectionLifecycleService.Delete`: other application processes are free to connect a drive between the check and the deletion; DriveProtocol.EditCheckCanGoStale shows that run, so the result speaks of a state each drive passed through and of what must have happened since if it is no longer quiet.
- `DriveMounts.RcloneDriveMount.BringUp`: a child that is given up before it was ever mounted is taken to be killed at once when its job is closed; a child that survives terminate and its wait before registration is not modelled.
- `DriveMounts.RcloneDriveMount.Disconnect`: queue statistics and remote-control calls are arbitrary answers; the model assumes only that rclone's metadata is honest about data still to be sent (DriveCache.Honest).
- `S3Transfers.Upload`: the put itself is unconditional, as in the source, so an object that another writer stores between the existence check and the put is replaced even under SKIP_EXISTING; the separate per-item progress events are not modelled.
- `S3Transfers.Download`: the temporary file is modelled only where it decides the outcome, when its name cannot be removed after a hard link.
- `S3Transfers.Stream`: adding to the count and taking the sum is one turn, as it is under the interpreter's lock.
- `S3Multipart.MultipartFile`: the file is assumed not to change while it is read, and `math.ceil` of a float quotient is taken as exact, which holds below 2^53 bytes.
- `S3Planning.PlanDownload`: listing and path resolution are parameters (`target`, `files`, `folders`); symbolic links and case-insensitive file names are part of what `target` decides.
- `S3Planning.PlanUpload`: walking folders is left out; the walk yields `sources`. Python's rglob silently skips folders it may not read, which this does not show.
- `S3Rename.RenameInBucket`: that equal entity tags mean equal bodies is a hypothesis of what is said about bytes; the client sends each request as often as the schedule says.
- `MfaCoordination.AuthenticatedOperationCoordinator.StartLong`: `execute_operation` may find the context cancelled and not call the action at all; such an attempt counts as a run here, so the bound on runs is not lowered by it.
- `MfaCoordination.AuthenticatedOperationCoordinator.Cancel`: any id may be cancelled, issued before or not, except one that another thread is just about to return for the first time; a caller who guessed such a random id would leave the action waiting without its refresh.
- `SessionServices.ManagedSsmSessionRunner.Start`: operation ids and AWS session ids are assumed new, as random UUIDs are; that a session runs in a terminal of its own exactly for EC2 is built in.
- `SessionServices.ManagedSsmSessionRunner.StopOwned`: a BaseException that leaves EndSession inside a managed `status` or `stop` would leave the operation owned with its one attempt made; it is not modelled.
- `SessionStore.AuthenticationService.Refresh`: decrypting a stored session and asking AWS whose it is are one call, and so are encrypting and storing a new one.
- `ExecutionLog.ExecutionLogStore.Append`: the cutoff is handed in as the time thirty days before now; date subtraction itself is library behaviour. Sanitising of the event text is left out.
- `SensitiveNames.DecisivePartsDecide`: lower-casing is ASCII; a few other characters also lower-case into ASCII letters in Python.
- `Secrets.Parse`: JSON text to document (RFC 8259) is the library's part; numbers are kept as numerals and a tuple, which JSON does not have, counts as a list in `mask`.
- Which regular expressions `mask_text` applies: an arbitrary function of the text.
- The order of a dict where a loop goes over a snapshot of it is any order, so "earliest failure" means earliest in that order.
- Activity logging: recorders are taken to be absent or not to fail. A failing STARTED record inside the expiry stop would drop a tunnel from the table without stopping it.
- The region of a drive and the credentials in the environment of its child.
- A crashing process loses its children and its file locks in the same step.
- `RcloneDriveMount.status`, `S3DriveService.clone`, `rename` and `connected_path`, `OperationContext.rebound` and `MaskingFilter`: they would add easy members only. Which drives `list` shows as disconnected is a parameter of `Active`.
- Direct clients of OperationCoordinator appear as other threads that start and drop refreshes of their own.
- Presentation layers, the command line, Windows process and ACL calls, INI files, AWS error translation, plain record keeping for profiles, tunnels, locations and settings, schema migrations.
