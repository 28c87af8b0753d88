# GuardianOS-AI: models and proofs of the backend's stateful protocols

This project models the parts of the GuardianOS-AI backend that keep state over long runs,
and proves what those parts are for. Each module follows one source component:

| file | what it models |
|---|---|
| `Wrappers.dfy` | result types and the sequence vocabulary the other files share |
| `ReversibleEffects.dfy` | effects with undos, performed in one order and undone in another, for any host |
| `Containment.dfy` | the system runner, the containment file and the containment manager |
| `ContainmentRollback.dfy` | what undoing an effect and rolling back a report restore, and when shared holds get lost |
| `ContainmentRuns.dfy` | whole runs of requests and rollbacks: the host, its directories, dry runs and restarts |
| `Audit.dfy` | the hash-chained audit trail and its verification |
| `Approval.dfy` | the approval gate, the action executor and the dashboard's execute button |
| `Feedback.dfy` | the analyst verdict ledger and the reweighting of the baseline |
| `Pipeline.dfy`, `PipelineProofs.dfy` | the learning, scoring, caching and relabelling loop |
| `AuditRecords.dfy` | reassembly of auditd records into events |
| `LogTail.dfy` | following a log file through rotation and truncation |
| `ChangeStream.dfy` | the bounded change log and the WebSocket cursor loops |
| `TokenBucket.dfy` | the telemetry rate limiter and the per-client API limiter |
| `Ring.dfy` | the bounded ring, the drop counters and rate-limited delivery |
| `AuditdProvider.dfy` | one collect of the auditd provider, and whole runs from log file to consumer |
| `ProcessDiff.dfy` | process table and connection snapshots turned into events, and what faults lose |
| `BehaviourGraph.dfy`, `BehaviourForest.dfy` | the behaviour graph of a chain, and when it is a forest |
| `Playbook.dfy` | rules expanded into actions without duplicates |

Objects whose methods update fields are classes; every such method is proved equal to a
specification function on the object's abstract value, and the properties are proved about
those functions and over all runs of them. Where a property the code is expected to have
does not hold in general, the code is modelled as it is and an if-and-only-if says when the
property does hold; the worst of the failing runs are lemmas of their own. Exceptions that the
code raises are outcomes of the model.

What stands outside the code is a parameter. The host (processes, files, directories,
firewall set) is an abstract world. HMAC (section 2 of RFC 2104), SHA-256 and the JSON
serialiser are functions, injective where a lemma says so. The detector is a scoring function
of a model version and a feature vector. Clocks are nondecreasing times passed in, and entry
ids are passed in and assumed fresh only where a lemma says so. Times, tokens and rates are
reals. Gate, executor, change log and ring calls are atomic steps. A read of the audit log is
its phases (rotation check, truncation check, draining, rotation check), which interleave in
any way with writers and rotations; `PhasesMakeRead` says that together they make one read.
Sizes and offsets of log files are in bytes.

## Where the code and its documentation differ

- The playbook documentation says the first match wins per action type
  (`backend/response/playbook.py:7`); the code keys on type and target (lines 88-92), so two
  addresses to block are both kept (`BothTargetsDecided`). `OneOfEachTypeIff` says when no
  type is decided twice.
- The tailer's documentation says a new file is read from its end
  (`backend/telemetry/sources.py:48-50`); the code reads it from its start (lines 127-130).
  The two agree exactly when the file is still empty: `RotationReadingsAgreeIff`.
- A file that shrinks is documented to be detected
  (`backend/telemetry/sources.py:51-53`); it is only while it is smaller than what was read:
  `CutInPlaceIff`.
- The auditd provider documents that dropped events are accounted for
  (`backend/telemetry/auditd_provider.py:5-8`); lines beyond the budget of a collect are read
  and never fed or counted (lines 70-73): `EveryLineFedIff`, `EventsAccounted`, `CutLosesEvent`.
- The audit trail is documented as signed and tamper-evident
  (`backend/response/audit.py:1-8`); verification looks only at signatures that are there
  (line 115), so a record, or a whole trail, without any passes under every secret:
  `VerifiesWithSecretIff`, `LastLineBoundBySignature`, `UnsignedTrailVerifies`.
- The behaviour graph is documented as a DAG whose edges link processes in the chain
  (`backend/explainability/chain.py:41-48`). Neither is checked: see `AcyclicIff` and
  `EndpointsExistIff` for when they hold.
- The rate-drop counter is documented as kept in sync with the drop counter
  (`backend/telemetry/ring.py:152`); a restart resets only one of the two (line 139), after
  which `drops_recent` counts rate drops as ring drops: see `RecentDropsAddUp`.
- The health counters are documented as cumulative since the start
  (`backend/telemetry/base.py:21-22`); the drop totals are not reset by a start:
  `CountersSinceStartIff` says when they agree, `RestartMisreports` is a run where they do not.
- A pipeline without baseline vectors is announced to go by hard signals until enough baseline
  accumulates (`backend/pipeline.py:213-217`); no refit ever ends that mode once learning is
  over, see `ModeIsForever` and `TrainedButNotAsked`.
- Dry-run mode is documented to turn every effect into a log line
  (`backend/response/actions.py:8-9`); a dry quarantine makes its directory
  (`backend/response/containment.py:294`), see `DryRunTouchesNothingIff`.

## Model

| member | source | states |
|---|---|---|
| `ReversibleEffects.UndoAnywhere` | backend/response/containment.py:173-182 | Undoing one effect removes exactly it from the run, whatever was performed after it and even if it was not performed, when effects are pairwise apart. |
| `Containment.ContainmentManager.Apply` | backend/response/containment.py:143-151 | The host, live entries and file move by the one transition for the action's type; a raising handler or an unknown type changes nothing. |
| `Containment.ContainmentManager.Rollback` | backend/response/containment.py:153-171 | An irreversible entry or a raising undo is refused with nothing changed; otherwise the host is undone, the entry delisted and the file left alone. |
| `Containment.ContainmentManager.RollbackAll` | backend/response/containment.py:173-182 | The loop over the selected entries, oldest first, on a copy of the list, with its count of entries really undone. |
| `Containment.ContainmentManager.constructor` | backend/response/containment.py:119-137 | A manager starts from the entries reloaded from its file. |
| `ContainmentRollback.UndoInvertsIffAdmissible` | backend/response/containment.py:249-326 | Apart from a quarantine directory just made, a handler's undo restores the host exactly when the target was not frozen or blocked before and the quarantine name was free; it restores all of it exactly when that directory was there too. |
| `ContainmentRollback.UndoCommutes` | backend/response/containment.py:249-326 | Undoing an effect commutes with performing another on a different target. |
| `ContainmentRollback.RollbackAllOfCompatible` | backend/response/containment.py:173-182 | On a host that carries the effects of the listed entries, a per-report rollback leaves the effects of the entries it keeps, touches no directory, delists the rest and counts them. |
| `ContainmentRollback.PerReportRollbackIsExact` | backend/response/containment.py:143-182 | Rolling back a report leaves the entries, processes, files and blocks that the other requests and the report's own kills would give, and returns the number of reversible requests taken back; the hosts are equal, directories included, exactly when the quarantine directory was there before, or a kept request needs it, or none did. |
| `ContainmentRollback.SharedBlockIsLost` | backend/response/containment.py:268-289 | Distinct targets are needed: rolling back one of two reports that block one address unblocks it while the other entry is still listed. |
| `ContainmentRollback.SharedHoldsExactIff` | backend/response/containment.py:173-289 | For any blocks and freezes on any targets, a per-report rollback leaves the host of the other requests exactly when none of them holds a target taken back and no such target was held at the start; the list is right either way. |
| `ContainmentRuns.HostMatchesEntries` | backend/response/containment.py:143-182 | Over any run of requests and rollbacks the host is the start plus the effects of the entries still listed, plus the quarantine directory if a request needed it. |
| `ContainmentRuns.FullRollbackLeavesOnlyKills` | backend/response/containment.py:173-182 | After any such run a full rollback leaves only the kills in the list, and on the host only them and the quarantine directory, if a request needed it. |
| `ContainmentRuns.DryRunTouchesNothingIff` | backend/response/containment.py:249-326 | A dry run of requests and rollbacks leaves the host as it was exactly when it holds no quarantine request, or the quarantine directory is there already, or a file stands in its way. |
| `ContainmentRuns.DryQuarantineMakesDirectory` | backend/response/containment.py:291-311 | The dry run that does change the host: one quarantine request where there is no directory yet. |
| `ContainmentRuns.DirectoriesOfRun` | backend/response/containment.py:291-311 | Over every run, live or dry, the quarantine directory is made with the first quarantine request if it can be, and nothing else touches a directory. |
| `ContainmentRuns.RestartEquivalence` | backend/response/containment.py:189-246 | Over every run, reloading the file gives back the live entries with equivalent undos if and only if nothing was rolled back; rolled-back entries are what the file has too many. |
| `ContainmentRuns.RollbackFreeRestart` | backend/response/containment.py:196-246 | In every run without rollbacks a restart changes nothing: host, entries, file, and what a later rollback does and counts. |
| `ContainmentRuns.RollbackAfterRestart` | backend/response/containment.py:196-246 | After every run of clean requests with rollbacks between them, a restart lists rolled-back entries again, and still a rollback brings the host to the same place as without the restart. |
| `Audit.AuditTrail.constructor` | backend/response/audit.py:43-54 | Opening a trail resumes the sequence number of the last decodable record. |
| `Audit.AuditTrail.Record` | backend/response/audit.py:60-92 | A record gets the next number, the digest of the last raw line, and a signature; without a path nothing is kept. |
| `Audit.AuditTrail.VerifyAll` | backend/response/audit.py:105-117 | The loop reports exactly the problems of the decoded records. |
| `Audit.NoProblemsIff` | backend/response/audit.py:105-117 | No problem is reported exactly when every record links to its predecessor and every signature checks. |
| `Audit.ChainBinds` | backend/response/audit.py:105-123 | Two verifying record lists with the same last record are the same list, length included. |
| `Audit.FilesBind` | backend/response/audit.py:94-123 | The same for two audit files, whatever lines in them do not decode. |
| `Audit.TamperingIsReported` | backend/response/audit.py:105-117 | Changing any record but the last of a verifying list is reported, with any signer. |
| `Audit.RewritingIsReported` | backend/response/audit.py:105-117 | So is dropping, adding or reordering records before an unchanged last one. |
| `Audit.LastLineBoundBySignature` | backend/response/audit.py:105-117 | Overwriting the last line of a verifying file with any record goes unreported exactly when that record keeps the link and is unsigned or carries the signer's own signature. |
| `Audit.VerifiesWithSecretIff` | backend/response/audit.py:105-117 | A secret adds to verification exactly that each record is unsigned or signed with it. |
| `Audit.UnsignedTrailVerifies` | backend/response/audit.py:60-117 | Whatever is written without a secret, over any writes and reopenings, verifies under every secret. |
| `Audit.AppendKeepsVerifying` | backend/response/audit.py:60-92 | A verifying file still verifies after one more record exactly when its last raw line is the canonical text of its last record. |
| `Audit.TrailVerifiesItself` | backend/response/audit.py:43-117 | Any writes with one signer, interleaved with reopening the file, leave numbers 1..n and a file without problems. |
| `Audit.UndecodableLineIsSkipped` | backend/response/audit.py:94-103 | A line that does not decode is passed over by verification, wherever it stands. |
| `Approval.ApprovalGate.Process` | backend/response/approval.py:35-54 | A recommended action of a destructive type waits unless auto-approval is on; any other is approved with an audit record; other statuses are left alone. |
| `Approval.ApprovalGate.Approve` | backend/response/approval.py:56-66 | Only a pending action is approved, with an audit record naming actor and report. |
| `Approval.ApprovalGate.Reject` | backend/response/approval.py:68-77 | Only a pending action is rejected, with an audit record. |
| `Approval.ActionExecutor.Execute` | backend/response/actions.py:87-107 | Only an approved action reaches containment; a raised fault fails it and is audited, otherwise it is executed and audited. |
| `Approval.ExecuteAction` | backend/pipeline.py:339-356 | The button approves and then executes the indexed action of the first report with the id; a missing report or index changes nothing, and no other action changes. |
| `Approval.ButtonRunsOnce` | backend/pipeline.py:339-356 | In every run a press of the button leaves an action run exactly once unless it was still recommended or rejected, then never; pressing again changes nothing. |
| `Approval.MoveRecorded` | backend/response/approval.py:35-77 | Each call moves a status only along an allowed transition and writes the audit record the new status calls for. |
| `Approval.ActionHistory` | backend/response/approval.py:35-89 | Over every run the audit records of an action are exactly those its status calls for, and it reached containment once if executed or failed, else never. |
| `Approval.StatusMovesForward` | backend/response/approval.py:35-77 | From one step of a run to the next a status changes only along an allowed transition. |
| `Approval.ApprovedByHuman` | backend/response/approval.py:56-66 | With auto-approval off, a destructive action past its gate was approved by a human earlier in the run. |
| `Approval.ContainmentNeedsHumanApproval` | backend/response/actions.py:87-107 | With auto-approval off, a destructive action reaches containment only after a human approved it at an earlier step. |
| `Approval.NoApprovalNoEffect` | backend/response/actions.py:87-107 | With auto-approval off and no human approval in the run, the host and the containment list never change. |
| `Approval.AuditBalances` | backend/response/approval.py:79-89 | With auditing on, approvals count the actions past approval, rejections the rejected, executions the executed and failed executions the failed, at every point of every run. |
| `Feedback.FeedbackLedger.Record` | backend/feedback/ledger.py:41-64 | An unknown verdict is refused with nothing changed; a known one replaces the chain's entry, is saved, and reports whether it changed the verdict. |
| `Feedback.PutIsAssignment` | backend/feedback/ledger.py:41-64 | Recording changes the verdict of its chain and of no other, and keeps keys distinct. |
| `Feedback.LedgerHoldsLatest` | backend/feedback/ledger.py:66-76 | However verdicts came in, each chain has its latest one, and the malicious keys are the chains whose latest verdict is malicious. |
| `Feedback.SaveLoadRoundTrip` | backend/feedback/ledger.py:89-111 | A restart reads back the saved ledger, order included. |
| `Feedback.ReweightIsFilter` | backend/feedback/learning.py:16-24 | Reweighting keeps exactly the vectors whose chain is not labelled malicious, in order. |
| `Pipeline.GuardianPipeline.AnalyzeWindow` | backend/pipeline.py:234-303 | The window loop with its cache, reports, baseline and periodic refit computes the window transition; during learning it raises and changes nothing. |
| `Pipeline.GuardianPipeline.LearningStep` | backend/pipeline.py:177-201 | A learning tick accumulates and completes learning when its window or time condition holds. |
| `Pipeline.GuardianPipeline.CompleteLearning` | backend/pipeline.py:203-231 | Completion takes in the given vectors, fits if there are enough, and enters detection. |
| `Pipeline.GuardianPipeline.PeriodicRefit` | backend/pipeline.py:367-387 | After the configured number of windows the detector is refitted on the reweighted baseline and the cache emptied. |
| `Pipeline.GuardianPipeline.LabelChain` | backend/pipeline.py:390-423 | A verdict on a report's chain updates ledger, baseline, cache and detector together; an unknown verdict is an error and changes nothing. |
| `Pipeline.IdsDetermineEvents` | backend/pipeline.py:331-336 | Two event lists collected in order from one history with unique ids are equal when their ids are, as multisets. |
| `Pipeline.FingerprintIdentifies` | backend/pipeline.py:331-336 | Chain key and fingerprint identify a vector within one collection history. |
| `PipelineProofs.HitIsFresh` | backend/pipeline.py:234-303 | When the cache is sound, a hit is what scoring the vector now would give. |
| `PipelineProofs.CachedRefinesRescoring` | backend/pipeline.py:234-303 | In every reachable state the cache is sound, and the cached pipeline is in the same state, reports and baseline included, as one that always rescores. |
| `PipelineProofs.ReachableHitIsFresh` | backend/pipeline.py:234-303 | In every reachable state a hit is a fresh score, for every vector of the history. |
| `PipelineProofs.WindowReportsExactly` | backend/pipeline.py:234-303 | In every reachable detection state a window reports exactly the vectors that scoring them now would flag, one each and in order, keeps the newest 1000 reports, and feeds nothing flagged to the baseline. |
| `PipelineProofs.LateCompletionLeavesStaleScores` | backend/pipeline.py:203-231 | A run that completes learning once more during detection still serves the score of the first model, which is right exactly when the second fit changes nothing for that vector. |
| `PipelineProofs.LateCompletionIsSoundIff` | backend/pipeline.py:203-231 | Completing learning during detection keeps the cache sound, for every scorer it is sound for, exactly when the cache is empty or there is nothing to fit and the mode goes by signals already. |
| `PipelineProofs.ModeIsForever` | backend/pipeline.py:208-249 | Once learning is over the mode never changes in any run; in signal-only mode every vector is scored by the signals alone, however much baseline accumulates. |
| `PipelineProofs.TrainedButNotAsked` | backend/pipeline.py:213-249 | A run after which the detector was refitted on an accumulated baseline and is still not asked. |
| `PipelineProofs.AddKeepsBaseline` | backend/pipeline.py:164-172 | The baseline keeps one vector per chain and its cap. |
| `PipelineProofs.TrainingStaysClean` | backend/pipeline.py:367-423 | Over every run, each refit trains on at least two vectors and on no chain labelled malicious at that moment, and the baseline stays duplicate-free and capped. |
| `PipelineProofs.LabelTakesHold` | backend/pipeline.py:390-423 | In every reachable state a changed label takes hold at once: a benign chain with a known vector is in the baseline, a malicious one is not, and its cached score is gone. |
| `AuditRecords.AuditRecordParser.Feed` | backend/telemetry/parsers.py:149-162 | One line moves the context and emits the completed event by the streaming transition. |
| `AuditRecords.AuditRecordParser.Flush` | backend/telemetry/parsers.py:164-170 | Flushing emits the open context and forgets it. |
| `AuditRecords.AuditRecordParser.MergeRecord` | backend/telemetry/parsers.py:189-236 | Merging a record sets the fields of its type, `path` included when it has no usable name. |
| `AuditRecords.AuditRecordParser.CollectArgs` | backend/telemetry/parsers.py:238-253 | The arguments collected are those present, in order, up to the record's count. |
| `AuditRecords.RunsExist` | backend/telemetry/parsers.py:149-162 | Every record sequence divides into maximal same-serial runs, cut after each EOE. |
| `AuditRecords.RunsAreUnique` | backend/telemetry/parsers.py:149-162 | The division into maximal runs is unique. |
| `AuditRecords.StreamingEqualsBatch` | backend/telemetry/parsers.py:149-170 | Feeding any lines and flushing emits, run by run, the events of the run merged as a whole. |
| `AuditRecords.UnparseableLinesDoNotMatter` | backend/telemetry/parsers.py:149-162 | Lines that do not parse change nothing, wherever they are inserted. |
| `AuditRecords.FlushAtRunBoundary` | backend/telemetry/parsers.py:164-170 | An early flush where a run ends changes nothing. |
| `AuditRecords.FlushInsideRunLosesArguments` | backend/telemetry/parsers.py:164-170 | An early flush between an exec's SYSCALL and EXECVE records changes the events exactly when there were arguments to lose. |
| `AuditRecords.FlushInsideRunIff` | backend/telemetry/parsers.py:164-369 | An early flush inside any event, before records that carry no outcome, changes nothing exactly when the event failed or those records leave its arguments and binary, its peer, or its file as they were. |
| `AuditRecords.MergedIsCtxOf` | backend/telemetry/parsers.py:189-236 | The merged context can be read off the last record of each type and the last outcome. |
| `AuditRecords.LastRecordsDecide` | backend/telemetry/parsers.py:189-236 | Runs whose last records of each type contribute the same, with the same outcome, emit the same events. |
| `AuditRecords.OrderDoesNotMatter` | backend/telemetry/parsers.py:189-369 | Rearranging or repeating the records of one event changes nothing when the records of each type contribute the same fields and agree on the outcome, with any EOE last. |
| `AuditRecords.OrderIff` | backend/telemetry/parsers.py:189-369 | Given one system call and one outcome, every arrangement of an event's records emits the same exactly when any two records of one type read the same as the last of their type. |
| `AuditRecords.FileOrderIff` | backend/telemetry/parsers.py:230-345 | For an event that opens a file: exactly when all its PATH records name the same file. |
| `AuditRecords.PathOrderIff` | backend/telemetry/parsers.py:230-369 | Two PATH records give the same events in either order exactly when both read the same in the event at hand. |
| `AuditRecords.LaterPathHidesFile` | backend/telemetry/parsers.py:230-231 | With two PATH records order matters: a later one without a usable name hides the file. |
| `AuditRecords.RunEmitsExactly` | backend/telemetry/parsers.py:272-369 | Exactly which runs emit, how many events, and that each carries the process and user of the run's SYSCALL record. |
| `LogTail.AuditLogSource.Start` | backend/telemetry/sources.py:80-85 | Starting opens the current file at its end, or fails when there is none. |
| `LogTail.AuditLogSource.ReadNewLines` | backend/telemetry/sources.py:87-95 | A read checks rotation, then truncation, then returns what is unread; before a start it is an error. |
| `LogTail.AuditLogSource.CheckRotation` | backend/telemetry/sources.py:119-133 | A replaced file is opened from its beginning and the rotation counted; the old file's unread lines are dropped. |
| `LogTail.AuditLogSource.CheckTruncation` | backend/telemetry/sources.py:135-144 | When the file the path names is smaller in bytes than the offset of the open handle, that handle is read again from its beginning and the truncation counted. |
| `LogTail.DeliveredExactly` | backend/telemetry/sources.py:80-144 | Over all interleavings of appends, rotations and single read phases, a file delivers exactly its lines from its starting point to its length when last drained, once each and in order, if and only if it was never drained after a misled check with the handle still on it. |
| `LogTail.MissedExactly` | backend/telemetry/sources.py:80-144 | Of a file never so reread, a line is missed exactly when it precedes the start or was not there when the file was last drained. |
| `LogTail.NoFalseTruncation` | backend/telemetry/sources.py:135-144 | While files only grow and nothing comes between the two checks of a read, no truncation is ever counted. |
| `LogTail.TruncationIff` | backend/telemetry/sources.py:119-144 | Over all interleavings, growing files are taken for truncated exactly when a check finds the path replaced, since the rotation check before it, by a file with fewer bytes than were read. |
| `LogTail.WholeReadsDeliverExactly` | backend/telemetry/sources.py:87-144 | With uninterrupted reads nothing is assumed: each file delivers exactly its span and no truncation is counted. |
| `LogTail.PhasesMakeRead` | backend/telemetry/sources.py:87-95 | The phases with nothing in between are one read. |
| `LogTail.RotationBetweenChecksRereads` | backend/telemetry/sources.py:119-144 | A rotation between the two checks of one read makes it deliver old lines again exactly when the new file has fewer bytes than had been read. |
| `LogTail.CutInPlaceIff` | backend/telemetry/sources.py:135-144 | A file cut and rewritten in place is noticed exactly when it is read before it has grown back to the cursor; then all its new lines are delivered, else the cursor stays where it was. |
| `LogTail.RotationReadingsAgreeIff` | backend/telemetry/sources.py:119-133 | Reading a new file from its start and from its end come to the same exactly when it is still empty; else the code delivers the lines it has. |
| `ChangeStream.ChangeLog.Record` | backend/api/changes.py:22-27 | A change gets the next number and the log keeps the newest `maxlen`. |
| `ChangeStream.ChangeLog.Since` | backend/api/changes.py:29-36 | The changes newer than the cursor, in order. |
| `ChangeStream.Stream.Poll` | backend/api/routes.py:219-235 | One turn of the loop sends what is new and moves the cursor, or does nothing. |
| `ChangeStream.LogIsRecentHistory` | backend/api/changes.py:22-27 | In every interleaving the log is the contiguous last `maxlen` changes of history. |
| `ChangeStream.ClientReceives` | backend/api/routes.py:219-235 | Each client has received, poll by poll, exactly what was new to it and still in the log. |
| `ChangeStream.StreamProtocol` | backend/api/routes.py:219-235 | Each client receives a strictly increasing subsequence of history, and a change arrives if and only if it was not evicted before the client's next poll. |
| `ChangeStream.PromptClientMissesNothing` | backend/api/routes.py:219-235 | A client with at most `maxlen` changes between its polls receives the whole history up to its last poll. |
| `TokenBucket.OpenLimiter` | backend/telemetry/ring.py:95-101 | A limiter opens full, and a rate that is not positive is an error. |
| `TokenBucket.RateLimiter.Allow` | backend/telemetry/ring.py:103-109 | The limiter refills, grants and pays by the bucket transition. |
| `TokenBucket.ClientBucket.Consume` | backend/api/ratelimit.py:30-41 | A client bucket refills and either takes one token or computes the wait. |
| `TokenBucket.RateLimitMiddleware.Dispatch` | backend/api/ratelimit.py:54-78 | A request is served from its client's bucket, created on first use, and answered or refused with the header. |
| `TokenBucket.ConsumeIsAllowOne` | backend/api/ratelimit.py:30-41 | The two limiters are one: consuming is being allowed one. |
| `TokenBucket.StepPays` | backend/telemetry/ring.py:103-109 | A call keeps tokens in range, pays for its grant, and refuses only when less than one token is left. |
| `TokenBucket.GrantedBetween` | backend/telemetry/ring.py:103-109 | Between any two calls of any run, no more is granted than the capacity plus the rate times the time between them. |
| `TokenBucket.AdmittedBetween` | backend/api/ratelimit.py:30-41 | Between any two requests of one client in any run, no more are admitted than the capacity plus the rate times the time between them. |
| `TokenBucket.TokensStayInRange` | backend/telemetry/ring.py:103-109 | In every run tokens stay between 0 and the capacity. |
| `TokenBucket.RefusedPollsDoNotMatter` | backend/api/ratelimit.py:30-41 | Refused polls do not delay the bucket. |
| `TokenBucket.RetryAfterIsExact` | backend/api/ratelimit.py:30-41 | After a refusal with wait w a request is admitted exactly when at least w has passed, whatever was refused in between, given room for one token. |
| `TokenBucket.HeaderSuffices` | backend/api/ratelimit.py:71-77 | Waiting as long as the Retry-After header says (section 10.2.3 of RFC 9110) always suffices when nobody else consumes, and is at most a second too long. |
| `TokenBucket.ClientsAreIsolated` | backend/api/ratelimit.py:54-78 | In every run of the middleware a client has the bucket and the answers of one bucket that sees its requests alone. |
| `Ring.OpenRing` | backend/telemetry/ring.py:32-37 | A ring opens empty with its capacity, and a capacity below 1 is an error. |
| `Ring.BoundedRing.PushMany` | backend/telemetry/ring.py:39-51 | The ring keeps what was there and the oldest arrivals that fit, and counts the rest. |
| `Ring.DropCounter.Record` | backend/telemetry/ring.py:73-77 | A positive count is added to both totals and any other ignored. |
| `Ring.BoundedProvider.Deliver` | backend/telemetry/ring.py:158-171 | One collect pushes, drains, rate-limits and counts by the delivery transition. |
| `Ring.BoundedProvider.Status` | backend/telemetry/ring.py:177-193 | A status call reports the counters and resets the recent ones. |
| `Ring.BoundedProvider.MarkStarted` | backend/telemetry/ring.py:133-139 | A start resets deliveries and the limiter's recent count, and nothing else of the accounting. |
| `Ring.NothingIsLostSilently` | backend/telemetry/ring.py:158-171 | Between calls the ring is empty, and all ever offered was handed on or counted as dropped, overall and since the last start. |
| `Ring.StatusSplitsDrops` | backend/telemetry/ring.py:177-193 | The reported total of drops is the ring's own, the cut at 0 never fires, and ring drops, rate drops and deliveries add up to what was offered. |
| `Ring.RecentDropsAddUp` | backend/telemetry/ring.py:133-193 | The recent drops reported by all status calls add up to the ring's drops if and only if no start forgot pending rate drops; each forgotten one is reported too many. |
| `Ring.WithoutRestart` | backend/telemetry/ring.py:158-193 | When only the first call is a start, offered is delivered plus dropped, and the reports add up exactly. |
| `Ring.CountersSinceStartIff` | backend/telemetry/ring.py:133-193 | Of the reported counters the deliveries are since the last start; each drop total is exactly when nothing of its kind was dropped before it. |
| `Ring.RestartMisreports` | backend/telemetry/ring.py:133-139 | A restart after one drop of each kind: the totals still show both, and a pending rate drop is reported as a ring drop. |
| `Ring.DeliversPrefix` | backend/telemetry/ring.py:158-171 | In every reachable state a delivery hands on a prefix of its input, cut only by the capacity or by a bucket left with less than one token. |
| `Ring.DeliveredBetween` | backend/telemetry/ring.py:158-171 | Over every stretch of every run, no more is delivered than the burst plus the rate times the time between its ends. |
| `AuditdProvider.Provider.Start` | backend/telemetry/auditd_provider.py:43-49 | A start opens the log at its end and resets the delivery counters, or fails when there is no log. |
| `AuditdProvider.Provider.Collect` | backend/telemetry/auditd_provider.py:59-75 | A collect reads all new lines, feeds them while the budget lasts, flushes and delivers; before a start it is an error. |
| `AuditdProvider.AllFedIff` | backend/telemetry/auditd_provider.py:68-75 | Every line of a read is fed exactly when there are no more lines than the budget and no proper beginning of them completes that many events. |
| `AuditdProvider.WithheldIsTheRest` | backend/telemetry/auditd_provider.py:68-75 | Where the cut falls between two events, what it withholds is all events of the lines not fed. |
| `AuditdProvider.CutLosesEvent` | backend/telemetry/auditd_provider.py:68-75 | With a budget of one and the records of two events in one read, the second event is lost. |
| `AuditdProvider.EveryLineFedIff` | backend/telemetry/auditd_provider.py:68-75 | Over all collects, every line read is fed exactly when every batch is within the budget. |
| `AuditdProvider.EventsAccounted` | backend/telemetry/auditd_provider.py:59-75 | In every run the events that the lines read are worth are handed on, counted as dropped, or withheld by a cut, which nothing counts. |
| `AuditdProvider.EndToEnd` | backend/telemetry/auditd_provider.py:59-75 | From file to consumer over whole runs: with batches within the budget that end where events end, all events of the log from start to last read are handed on or counted as dropped, and without drops they are what was handed on, in order. |
| `ProcessDiff.ProcessMonitor.TakeSnapshot` | backend/telemetry/process_monitor.py:88-95 | A snapshot has one entry per readable pid, the last one read; it raises when a process ends before its name is read. |
| `ProcessDiff.ProcessMonitor.DiffProcesses` | backend/telemetry/process_monitor.py:105-161 | The two loops emit exactly the arrivals and departures and the new table becomes the known one; a process gone when its event is built raises before anything is taken over. |
| `ProcessDiff.ProcessMonitor.DiffNetwork` | backend/telemetry/process_monitor.py:163-195 | Each new reportable connection once, in any order; a connection whose owner is gone raises with the known connections unchanged. |
| `ProcessDiff.ProcessMonitor.Collect` | backend/telemetry/process_monitor.py:60-73 | Before a start it is an error that changes nothing; after it the diff and the new connections are delivered and counted, or it raises with the old table in place, or with the new one taken over and the diff lost. |
| `ProcessDiff.DiffReplaysSnapshot` | backend/telemetry/process_monitor.py:105-161 | Replaying a diff over the old table gives the new one if and only if no process that appeared has creation time 0 with a later look that differs. |
| `ProcessDiff.SilentIffSame` | backend/telemetry/process_monitor.py:105-132 | A diff is empty exactly when the tables have the same pids and creation times. |
| `ProcessDiff.StreamReplays` | backend/telemetry/process_monitor.py:84-132 | In every run whose raising collects lost nothing, the stream since the start replays the table at the start to the current one, with no event out of place and every reported creation time right. |
| `ProcessDiff.InStepIff` | backend/telemetry/process_monitor.py:60-132 | With positive creation times the stream gives the current table after every operation of a run if and only if no collect that raised with the new table taken over had anything to report. |
| `ProcessDiff.LostCreation` | backend/telemetry/process_monitor.py:60-73 | A run that loses: a process appears with a connection whose owner is gone, then exits; the exit is handed out, the creation never was. |
| `ProcessDiff.StreamReplaysExactly` | backend/telemetry/process_monitor.py:84-132 | In such a run, with positive creation times, the replayed table is the current one. |
| `ProcessDiff.EventsAlternate` | backend/telemetry/process_monitor.py:105-132 | In every run whose raising collects lost nothing, the created and exited events of each pid take turns, and the last one tells whether it is alive. |
| `BehaviourGraph.BuildDag` | backend/explainability/chain.py:41-118 | The construction with its node list, two dictionaries and in-place updates yields the declared nodes, edges and roots of the events in time order. |
| `BehaviourGraph.ByTimeSorts` | backend/explainability/chain.py:62 | The events are put in order of time, none lost, those of one time kept in their given order. |
| `BehaviourGraph.NodeOfPid` | backend/explainability/chain.py:62-86 | A pid with a process event has exactly one node: lineage, kind and time from its first event, binary and description from its last exec; no other pid has one. |
| `BehaviourGraph.NodesOfEvent` | backend/explainability/chain.py:87-102 | Each attached event has its own leaf node. |
| `BehaviourGraph.NodeIdsUniqueIff` | backend/explainability/chain.py:54-102 | Node ids are unique exactly when no two attached events share an event id. |
| `BehaviourGraph.EdgesIntoProcess` | backend/explainability/chain.py:104-110 | At most one edge leads into a process: the spawn edge from its parent, when that occurs and is another process. |
| `BehaviourGraph.EdgesIntoLeaf` | backend/explainability/chain.py:87-110 | Into a leaf leads one attach edge per attached event of its id, from the acting process, and as many spawn edges from the missing pid when any event has none. |
| `BehaviourForest.LeavesAreLast` | backend/explainability/chain.py:102-110 | No edge goes out of a leaf. |
| `BehaviourForest.EndpointsExistIff` | backend/explainability/chain.py:54-110 | Every edge has both its nodes exactly when every acting pid has a process event. |
| `BehaviourForest.RootIff` | backend/explainability/chain.py:112-117 | The roots are the processes first seen as created or executed whose parent does not occur. |
| `BehaviourForest.RootsPlusSpawnsIff` | backend/explainability/chain.py:105-117 | Processes (and leaves, when an event has no pid) are as many as roots and spawn edges exactly when no process names itself as parent and none is first seen exiting without its parent. |
| `BehaviourForest.AcyclicIff` | backend/explainability/chain.py:105-110 | The graph has no cycle exactly when climbing from parent to parent ends, within as many steps as there are processes, from every process. |
| `BehaviourForest.ParentsFirstIsGrounded` | backend/explainability/chain.py:62-110 | Parents seen before their children are enough to rule out cycles. |
| `BehaviourForest.AllReachableIff` | backend/explainability/chain.py:105-117 | Every node is reached from a root exactly when parents that occur are processes, every leaf hangs on one, there are no strays and every lineage ends. |
| `BehaviourForest.IsForest` | backend/explainability/chain.py:41-118 | With all pids given, parents first, actors present and no strays, the graph is a forest: nodes at both ends of every edge, in-degree at most one, no cycle, all reachable, roots exactly the nodes without incoming edge, and the counts agree. |
| `BehaviourForest.MutualParentsCycle` | backend/explainability/chain.py:105-117 | Two processes that name each other as parent form a cycle and leave no root. |
| `Playbook.PlaybookEngine.Decide` | backend/response/playbook.py:72-93 | The loops return the first action of every key, in order, of all that the matching rules expand to. |
| `Playbook.PlaybookEngine.CollectIps` | backend/response/playbook.py:138-150 | The distinct suspicious addresses in order of first appearance. |
| `Playbook.PlaybookEngine.CollectPayloads` | backend/response/playbook.py:152-160 | The distinct temporary-directory paths written, in order of first appearance. |
| `Playbook.SuspiciousIps` | backend/response/playbook.py:138-150 | Exactly the addresses of suspicious connections, none twice. |
| `Playbook.FirstsKeys` | backend/response/playbook.py:81-93 | De-duplication loses no key, repeats none and adds nothing. |
| `Playbook.DecidesExactly` | backend/response/playbook.py:72-170 | An action is decided if and only if the detection is flagged, a matching rule lists its type and the chain gives its target; no key is decided twice. |
| `Playbook.OneOfEachTypeIff` | backend/response/playbook.py:72-170 | No two actions of one type are decided exactly when the chain has at most one suspicious address, if a matching rule lists blocking, and at most one file to quarantine, if one lists that. |
| `Playbook.BothTargetsDecided` | backend/response/playbook.py:81-93 | Two targets of one type that a matching rule lists are both decided. |
| `Playbook.AddedRulesOnlyAdd` | backend/response/playbook.py:81-93 | Rules appended to the list only append actions to the result. |
| `Playbook.RuleOrderDoesNotMatter` | backend/response/playbook.py:81-93 | Reordering or repeating rules never changes which actions are decided. |
| `Playbook.FirstRuleDecides` | backend/response/playbook.py:81-93 | A decided action carries the rationale of the first matching rule that asks for it. |

## Left out

- The React frontend, the terminal dashboard, FastAPI wiring, authentication, configuration loading and scripts.
- The Isolation Forest, numpy and joblib: the detector is a function of a model version and a vector.
- eBPF, Tracee, psutil, nftables, SQLite, subprocesses and threads (`SubprocessLineSource` included): replaced by an abstract host, process table or file state.
- The regular expressions that tokenise audit lines, JSON and YAML text, number and socket address decoding, and user name lookup: parsing starts from decoded records.
- A record's own fields named `type` or `serial` overriding the header's, and `normalize_kernel_record`.
- The binary, command line, user and working directory of a process event, and the details of a connection event.
- Partial last lines of a growing log, characters of more than one byte, and whole runs of copy-and-truncate rotations (one read after a cut is modelled).
- Events or log entries that are written while one call of a component runs: calls are atomic, except the reads of the audit log.
- Explanation prose, MITRE mapping, report narratives, severity thresholds and feature arithmetic; the text of event descriptions is taken as given.
- Float rounding, wall-clock readings and random identifiers: reals, time arguments and fresh ids.
- The last error and the source diagnostics in a provider's status.
- Rationale text other than the rule name, and the log messages.
- File moves that raise, and directories that cannot be made for another reason than a file in the way (permissions): a quarantine move in the model succeeds when its source exists.
- The directory of the containment file itself (`backend/response/containment.py:191`), which recording an entry makes.
- The key of a playbook action with no pid, address or path in its target: no builder makes one.
- The first fit of learning is not filtered by verdicts (`backend/pipeline.py:227`), so `TrainingStaysClean` speaks of refits only.
- PipelineProofs.CachedRefinesRescoring: assumes that learning is completed only from the learning phase; `LateCompletionIsSoundIff` says exactly what else would be harmless.
- AuditRecords.OrderIff: assumes that the SYSCALL and CONNECT records of an event agree, as they do when there is one.
- AuditRecords.FlushInsideRunIff: assumes that no SYSCALL or CONNECT record comes after the flush.
- LogTail.CutInPlaceIff: does not say what is read when the cut goes unnoticed, because the cursor can then stand inside a line.
- ProcessDiff.InStepIff: assumes positive creation times, as `StreamReplays` for one direction does not.
- AuditdProvider.EndToEnd: assumes whole reads, batches within the budget, and batches that end where events end; `EventsAccounted` needs none of these.
- ContainmentRollback.PerReportRollbackIsExact: assumes distinct, untouched targets; `SharedHoldsExactIff` is exact for blocks and freezes that share targets, while quarantines and kills that do are not characterised.
- ContainmentRuns.RollbackAfterRestart: assumes that all requests of the run have distinct, untouched targets.
