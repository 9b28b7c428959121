# Verification of netbox-proxbox

A Dafny model of the parts of netbox-proxbox whose correctness is not visible in any single function,
and proofs about them.

* **The WebSocket relay** (`Relay*.dfy`, `MessageLog.dfy`, `Cursor.dfy`). Request threads latch a sync and
  queue a command; one session per connection dequeues it, negotiates whether the backend understands run
  ids, sends an envelope or a plain command, and downgrades on rejection; backend frames free latches and
  land in a bounded buffer that readers page through. Every critical section is one atomic step, and the
  code between two sections (probes, sends, receives) is split, so that all interleavings of any number of
  requests, sessions and control threads are runs of `RelayProtocol`. `RelayObject` is the same module
  state as an object with one method per section, proved to refine the abstract one.
* **Sync runs** (`SyncModes.dfy`, `StagePlan.dfy`, `StageRun.dfy`, `StageTheorems.dfy`, `BatchScope.dfy`,
  `KeyRetry.dfy`, `JobMerge.dfy`, `JobTheorems.dfy`). The parent-child mode cascade, stage plans, staged and
  selected-object runs with their backend scoping and retries, and the rule that decides whether an
  isolation branch is merged. What the backend, the services, the clock and the database answer is arbitrary.
* **The boundary scanner** (`Png.dfy`, `GitBatch.dfy`, `Archive.dfy`, `ArchiveTheorems.dfy`). The PNG chunk
  check, the parser of `git cat-file --batch`, and the scan of nested archives under one shared budget.
* **The PEM redactor** (`Pem.dfy`).

`Basics.dfy`, `Picking.dfy`, `Text.dfy`, `Decimal.dfy` and `Bytes.dfy` hold what several modules need.
`Picking` says by positions, and not by recursion, what a Python comprehension selects; the scopes, ids,
paths, rows and log entries that the code filters are tied to it. Times are integer milliseconds. Run ids,
connection ids and requests are fresh tokens. `dafny verify dfyconfig.toml` checks the whole project.

Some promises hold only in part. The lemmas named here give a failing input, or the exact condition, or
both:

* `gap` is also set for a negative cursor (`MessageLog.GapIffEvicted`).
* The Git parser accepts negative sizes, and then its records do not tile the output
  (`GitBatch.NegativeSizeAccepted`); it is exact on every output in which no line reads as a header with a
  negative size (`GitBatch.AcceptsExactlyTilings`, by way of `GitBatch.TilesExactly` on the parsed records).
* The content of tar members is not charged, only the unpacked stream is; sparse members can exceed it
  (`Archive.SparseMembersEscape`). The bound every successful scan keeps is 100 MiB per charged member
  (`Archive.SuccessIsBounded`), and it is reached (`Archive.SparseMembersReachBound`).
* A second mode cascade can disable more when vm and vm_template have a parent
  (`SyncModes.CascadeNotIdempotent`, `SyncModes.CascadeTwice`).
* A staged job that reaches the deadline with no endpoint left merges its branch without having run a stage
  (`JobTheorems.LateJobWithoutEndpointsMerges`, `JobTheorems.MergesExactly`); in time, such a job never
  merges (`JobTheorems.JobWithoutEndpointsNeverMergesInTime`).
* A firewall or datacenter failure reported only for another endpoint is dropped
  (`JobTheorems.ForeignRowsHideFailure`, `JobMerge.PassIsClean`).

Two more edges of the code are modelled as they are: a request that finds the queue full is accepted and
latched with no command and no run id, and if every requested endpoint id is unusable the run widens to all
enabled endpoints.

## Model

| member | source | states |
|---|---|---|
| `RelayTheorems.RunIsolation` | netbox_proxbox/websocket_client.py:431-534 | In every interleaving, between a state where a correlated run owns its latch and a later one where it does not, there is a step that took it away, and that step is a terminal frame with exactly its run id (for a full update, the aggregate with status completed or failed), trust loss, an expiry after 600 s of silence, the drop of its own command before it was ever sent, or its own downgrade to a legacy run |
| `RelayTheorems.StepIsolates` | netbox_proxbox/websocket_client.py:980-1055 | The one-step form of run isolation, over every kind of step of requests, sessions and control threads |
| `RelayTheorems.PublishFreesExactly` | netbox_proxbox/websocket_client.py:421-534 | A published frame frees a held latch if and only if it ends that latch's run; every other latch keeps its run id, and the frame is appended in the same section |
| `RelayTheorems.OnlyOwnFramesKeepAlive` | netbox_proxbox/websocket_client.py:493-508 | The idle timer of a correlated run is refreshed by well-formed frames of that run and by no other frame |
| `RelayTheorems.TrustLossFreesLatch` | netbox_proxbox/websocket_client.py:573-594 | Trust loss frees the held latch and leaves exactly one message that names its kind and run id |
| `RelayTheorems.AcceptedExactly` | netbox_proxbox/websocket_client.py:1154-1196 | A request is accepted if and only if its worker and connection are current and no latch is held or the held one is idle; then it alone is latched, its run id is recorded if and only if the command fitted in the queue, and its cursor is the end of the log |
| `RelayTheorems.AtMostOneLatch` | netbox_proxbox/websocket_client.py:80-89 | In every reachable state at most one latch is held and a run id is recorded only on a held latch |
| `RelayTheorems.IdleExpiryWaits` | netbox_proxbox/websocket_client.py:974-992 | In every run, a latch freed by silence was taken at least 600 s before |
| `RelayTheorems.ReachableInv` | netbox_proxbox/websocket_client.py:713-766 | Every state of every run satisfies the invariant over latches, run ids, queue, sessions, transmissions, capability cache and log |
| `RelayInvariant.InvStep` | netbox_proxbox/websocket_client.py:638-710 | Every step of every thread keeps that invariant |
| `RelayTheorems.DrainedIsDrainAll` | netbox_proxbox/websocket_client.py:1042-1055 | Taking the drain steps one by one does what the discard loop does at once, and gives the lock back |
| `RelayDelivery.FirstInFirstOut` | netbox_proxbox/websocket_client.py:609-766 | Commands leave the queue in the order in which they were issued |
| `RelayDelivery.DepartInOrder` | netbox_proxbox/websocket_client.py:1105-1129 | Each departure takes exactly the oldest command that has not departed, and no other step moves the queue's head |
| `RelayDelivery.SentAtMostOnce` | netbox_proxbox/websocket_client.py:1004-1039 | A command is sent only on a connection of the endpoint and identity that authorised it, at most once as an envelope and at most once in plain form, the envelope first and both on one connection |
| `RelayDelivery.ResentOnlyByOwner` | netbox_proxbox/websocket_client.py:609-710 | A plain form after an envelope is sent only if, at an earlier downgrade step, the run of that command still owned the latch |
| `RelayDelivery.ActiveEnvelopeEmptiesQueue` | netbox_proxbox/websocket_client.py:551-570 | In every reachable state with a pending envelope whose run owns the latch, the queue is empty, so no session and no control thread can take another command out of it |
| `RelayDelivery.PendingEnvelopeBlocksQueue` | netbox_proxbox/websocket_client.py:713-766 | A session that waits for an envelope takes another command only after it saw that the run no longer owns the latch, or a frame with its run id, or its rejection |
| `RelayDelivery.TrueAnswerIsCurrent` | netbox_proxbox/websocket_client.py:271-308 | A true capability answer is about a connection that is current and unrejected in the last critical section of the call |
| `RelayDelivery.RejectionIsPermanent` | netbox_proxbox/websocket_client.py:271-365 | After a recorded rejection no later call answers true for the connection, not even a probe already in flight between its two sections, and no cache entry says true for it |
| `RelayDelivery.NoEnvelopeAfterRejection` | netbox_proxbox/websocket_client.py:638-677 | No envelope is sent on a connection that has ever rejected one |
| `RelayCapability.ProbeIsCached` | netbox_proxbox/websocket_client.py:281-308 | After an accepted probe the first section answers exactly what the probe said until 30 s have passed, then asks again, and with refresh always asks; of the other entries only expired decisions are gone |
| `RelayCapability.RefusedProbeChangesNothing` | netbox_proxbox/websocket_client.py:292-308 | A probe of an outdated or rejected connection leaves no trace |
| `RelayCapability.ReconnectForgetsPositive` | netbox_proxbox/websocket_client.py:311-354 | A worker that connects or disconnects loses its positive answers, and a closed connection its own entry; rejections, negative answers and other workers' entries are kept, and nothing is added |
| `RelayCapability.CachedIsLastProbe` | netbox_proxbox/websocket_client.py:271-308 | In every run, each cached decision, true or false, is what the last accepted probe of that connection said, and expires 30 s after it |
| `RelayCapability.CacheAnswersLastProbe` | netbox_proxbox/websocket_client.py:271-308 | In every run, an answer given about a usable connection without asking the backend is that of the last accepted probe of it, less than 30 s before the call began |
| `RelayDowngrade.PlainWasDecided` | netbox_proxbox/websocket_client.py:609-710 | A session about to send a command with a run id in plain form has taken the run id off the latch before, if the run still owned it, and the run has not owned the latch since |
| `RelayDowngrade.PlainSendIsAnnounced` | netbox_proxbox/websocket_client.py:609-710 | In every run, when a command with a run id is sent or resent in plain form its run does not own the latch, so a frame without a run id can end it; if the run owned it at the decision, the log has a message since then that names the run |
| `RelayProgress.ForeignCommandIsDropped` | netbox_proxbox/websocket_client.py:1004-1039 | A command of another endpoint or identity leaves the queue, is never sent, and gives back the latch of its own run and no other |
| `RelayProgress.LegacyCommandIsSent` | netbox_proxbox/websocket_client.py:713-766 | A command without a run id is sent as it is, and nothing else changes |
| `RelayProgress.CorrelatedCommandIsTaken` | netbox_proxbox/websocket_client.py:713-766 | A command with a run id, taken by a session it is bound to, is not sent before the backend is asked |
| `RelayProgress.CorrelatedCommandIsSent` | netbox_proxbox/websocket_client.py:1004-1039 | On a usable connection the backend is asked again whatever is cached; on yes the command goes out as an envelope and is waited for, on no it goes out plain and its run gives up the latch |
| `RelayProgress.UnusableConnectionSendsPlain` | netbox_proxbox/websocket_client.py:271-290 | On an outdated or rejected connection nothing is asked, and the command goes out plain |
| `RelayProgress.RejectedEnvelopeIsResent` | netbox_proxbox/websocket_client.py:638-710 | A rejection, bare or naming the run, of an envelope that is waited for: the connection is marked, the run keeps its latch without its run id, a message names it, and the same command is sent once more in plain form on the same connection; the rejection itself is not shown |
| `RelayProgress.OtherFrameIsPublished` | netbox_proxbox/websocket_client.py:537-570 | Every other frame is published, and the session goes on waiting if and only if the run still owns the latch and the frame does not name it |
| `RelayProgress.RequestAsks` | netbox_proxbox/websocket_client.py:1132-1151 | A request that finds no fresh answer asks the backend, caches what it says, and goes on with exactly that |
| `RelayProgress.RequestReusesAnswer` | netbox_proxbox/websocket_client.py:281-290 | A request that finds a fresh answer goes on with it and asks nothing |
| `RelayProgress.RequestIsAccepted` | netbox_proxbox/websocket_client.py:1154-1196 | With a current context and no latch held a request is accepted, its command queued last, and its run id recorded if and only if the backend said yes |
| `RelayProgress.RequestWithoutConnection` | netbox_proxbox/websocket_client.py:1132-1196 | Without a connection of the worker the request is accepted as a legacy run and nothing is asked |
| `RelayProgress.RefusedExactly` | netbox_proxbox/websocket_client.py:1154-1196 | When each of the three refusals is given, exactly, and which run id a busy answer names |
| `RelayProgress.LegacyActivity` | netbox_proxbox/websocket_client.py:502-534 | While no correlated run holds a latch every frame refreshes the idle timer, unless it breaks the protocol |
| `RelayProgress.WorkerIsStarted` | netbox_proxbox/websocket_client.py:880-918 | The same live worker is kept; otherwise the commands of the old one are discarded step by step and the new one takes its place |
| `RelayProgress.WorkerIsStopped` | netbox_proxbox/websocket_client.py:921-941 | A stop for another endpoint does nothing; any other ends with no worker, an empty queue and no connection of that endpoint |
| `RelayProgress.DroppedCommandFreesLatch` | netbox_proxbox/websocket_client.py:995-1001 | A discarded command frees the latch that stands for its run, or for no run if it has none, and no other |
| `RelayProgress.LostTrustFreesLatch` | netbox_proxbox/websocket_client.py:573-594 | A session that loses trust closes, and frees a held latch with one message that names its run |
| `RelayDelivery.CursorCoversPast` | netbox_proxbox/websocket_client.py:1160-1193 | The cursor of any accepted request is the length of the log, and every message published before has a sequence at or below it |
| `RelayDelivery.CursorPrecedesFuture` | netbox_proxbox/websocket_client.py:1160-1193 | In every later state the messages up to the cursor are unchanged, and every other message has a sequence above it |
| `RelayDelivery.EarlierReleaseIsPast` | netbox_proxbox/websocket_client.py:511-534 | The message that freed an earlier latch is at or below the cursor of every request accepted later |
| `RelayDelivery.LaterReleaseIsFuture` | netbox_proxbox/websocket_client.py:511-534 | The message that frees a latch after an accepted request is above the cursor of that request |
| `RelayBounds.QueueAndCacheAreBounded` | netbox_proxbox/websocket_client.py:1105-1129 | In every reachable state the queue holds at most 1000 commands, and a cached capability decision, which may be used without a probe, expires within 30 s |
| `RelayBounds.DropFreesOnlyNewest` | netbox_proxbox/websocket_client.py:995-1001 | In every reachable state, dropping an issued command frees the latch of a correlated run if and only if it is the command issued last, which is the one issued for that run |
| `RelayBounds.DrainFreesExactly` | netbox_proxbox/websocket_client.py:1042-1055 | In every reachable state, discarding the queue frees the latch of a correlated run if and only if the queue is not empty |
| `RelayObject.Relay.AppendMessage` | netbox_proxbox/websocket_client.py:953-965 | The object's buffer stays the last 500 entries of the whole log, numbered without holes |
| `RelayObject.Relay.PublishBackendMessage` | netbox_proxbox/websocket_client.py:511-534 | Does to the object what the abstract publish section does to the abstract state |
| `RelayObject.Relay.FailActiveSyncs` | netbox_proxbox/websocket_client.py:573-594 | Likewise for trust loss, latch by latch in dictionary order |
| `RelayObject.Relay.DowngradeQueuedRun` | netbox_proxbox/websocket_client.py:609-635 | Drops the correlation of a run exactly if it still owns its latch, keeps the latch, and appends a message that names the run; afterwards the run does not own the latch |
| `RelayObject.Relay.DiscardPendingCommands` | netbox_proxbox/websocket_client.py:1042-1055 | The loop empties the queue, takes no latch, and drops a recorded run id only together with a discarded command of that run |
| `RelayObject.Relay.QueueSyncCommand` | netbox_proxbox/websocket_client.py:1154-1196 | The whole request section, with each of its four refusals |
| `RelayObject.Relay.CachedCapability` | netbox_proxbox/websocket_client.py:281-290 | The first critical section answers true, or asks for a probe, only about a connection for which a probe would be accepted at that moment, and with refresh it never answers true |
| `RelayObject.Relay.RecordProbe` | netbox_proxbox/websocket_client.py:292-308 | The second critical section: a rejected or outdated connection is refused and nothing changes; otherwise the connection's entry says what the probe said and expires 30 s later, and of the other entries exactly the expired decisions are gone |
| `RelayObject.Relay.OpenConnectionSession` | netbox_proxbox/websocket_client.py:324-335 | A new connection becomes current and drops positive answers of its worker |
| `RelayObject.Relay.CloseConnectionSession` | netbox_proxbox/websocket_client.py:338-354 | Forgets exactly one connection and the positive answers of its worker |
| `RelayObject.Relay.MarkCapabilityNegative` | netbox_proxbox/websocket_client.py:357-365 | From then on every call about the connection, with or without refresh and at any time, is answered false by its first section, and its second section accepts no probe; other connections are as before |
| `RelayObject.Relay.StartWebsocket` | netbox_proxbox/websocket_client.py:880-918 | Keeps a live worker of the same endpoint and identity and changes nothing; otherwise the new worker is in place, and the queue of an old one is empty |
| `RelayObject.Relay.StopWebsocket` | netbox_proxbox/websocket_client.py:921-941 | Applies exactly to a worker of the asked endpoint; then there is no worker, no queued command and no connection of that endpoint |
| `RelayObject.Relay.ReadMessagesAfter` | netbox_proxbox/websocket_client.py:1080-1102 | A read of the bounded buffer is the page of the whole log |
| `MessageLog.PushRefinesAppend` | netbox_proxbox/websocket_client.py:62 | Appending to the bounded deque refines appending to the log: the buffer is always its last min(500, n) entries |
| `MessageLog.GapIffEvicted` | netbox_proxbox/websocket_client.py:1080-1102 | `gap` is set if and only if an entry after the cursor was evicted or the cursor is negative |
| `MessageLog.PageIsComplete` | netbox_proxbox/websocket_client.py:1080-1102 | A page without a gap is exactly the endpoint's entries between the cursor asked for and the cursor returned |
| `MessageLog.PageMakesProgress` | netbox_proxbox/websocket_client.py:1080-1102 | A page with room moves the cursor whenever something is waiting |
| `MessageLog.CursorNeverGoesBack` | netbox_proxbox/websocket_client.py:1080-1102 | The returned cursor is never negative and never before the one asked from, and an empty page moves it no further |
| `MessageLog.NewestPage` | netbox_proxbox/websocket_client.py:1080-1102 | Without a cursor a page is the newest entries of the endpoint still in the buffer, as many as the limit allows, and ends at the last of them, or at the end of the log if there is none |
| `MessageLog.BetweenPicked` | netbox_proxbox/websocket_client.py:1080-1102 | What lies between two cursors, said by position: every entry of the endpoint with such a sequence, once and in order |
| `MessageLog.FollowingIsLossless` | netbox_proxbox/websocket_client.py:1080-1102 | A reader that follows `next_sequence` without a gap, while messages keep arriving, gets every entry of its endpoint after the first cursor exactly once and in order |
| `Cursor.ParseFormat` | netbox_proxbox/websocket_client.py:1058-1077 | Parsing undoes formatting exactly for the sequences from 0 to below 10^18; every other value is refused |
| `Text.StripExactly` | netbox_proxbox/websocket_client.py:1063-1077 | Stripping a text leaves exactly what is between the white space at its two ends |
| `Cursor.ForeignCursorResets` | netbox_proxbox/websocket_client.py:1063-1077 | A cursor of another process generation carries no sequence and asks for a reset |
| `Cursor.ParsedInRange` | netbox_proxbox/websocket_client.py:70 | Whatever parses has a sequence below 10^18 |
| `Cursor.ParseExactly` | netbox_proxbox/websocket_client.py:1063-1077 | What every cursor parameter means: nothing if missing; once stripped, the number of a cursor of this process, a reset for one of another process, and an error if and only if it is not a cursor |
| `SyncModes.CascadeMeaning` | netbox_proxbox/sync_stages.py:226-274 | Over any parent map, even a cyclic one, a resource is disabled if and only if it or a node of its parent chain is, a `vm` parent counting only when vm and vm_template both are; else it keeps its own mode |
| `SyncModes.EffectiveFrom` | netbox_proxbox/sync_stages.py:241-264 | The recursive resolution with its set of visited nodes equals the declarative chain |
| `SyncModes.CascadeMonotone` | netbox_proxbox/sync_stages.py:267-274 | Disabling more never enables anything |
| `SyncModes.CascadeTwice` | netbox_proxbox/sync_stages.py:267-274 | A second cascade changes nothing if and only if no enabled resource hangs below `vm` while the first cascade left vm and vm_template disabled |
| `SyncModes.CascadeIdempotent` | netbox_proxbox/sync_stages.py:267-274 | The cascade is idempotent when vm and vm_template are roots |
| `SyncModes.CascadeNotIdempotent` | netbox_proxbox/sync_stages.py:232-264 | A hierarchy with a parent above vm and vm_template for which a second cascade disables more |
| `SyncModes.UnconfiguredModes` | netbox_proxbox/sync_stages.py:190-206 | Without a configured mode SDN and its BGP part are off whatever else is configured; with nothing configured everything else is on |
| `SyncModes.ProgramCascade` | netbox_proxbox/constants.py:41-47 | What the cascade makes of each of the ten modes of the program's own hierarchy |
| `StagePlan.NormalizeSyncTypes` | netbox_proxbox/sync_types.py:253-267 | The loop returns the canonical plan of the set of recognised slugs |
| `StagePlan.PlanMeaning` | netbox_proxbox/sync_types.py:16-30 | A canonical plan is strictly ordered and has exactly the given slugs |
| `StagePlan.PlanOfElements` | netbox_proxbox/sync_types.py:253-267 | A strictly ordered selection is the canonical plan of its own elements, so plans depend only on the set |
| `StagePlan.SortSorts` | netbox_proxbox/sync_types.py:253-267 | Sorting by position gives an ordered permutation |
| `StagePlan.NormalizeIdempotent` | netbox_proxbox/sync_types.py:253-267 | Normalizing a normalized selection changes nothing |
| `StagePlan.ExpandedSyncStages` | netbox_proxbox/sync_types.py:216-250 | The loop with its seen set computes the expanded plan |
| `StagePlan.ExpandIsLeastClosedPlan` | netbox_proxbox/sync_types.py:216-250 | Expansion is the least strictly ordered superset in which IP addresses or network interfaces bring in VM interfaces, VM interfaces come before IP addresses, and expanding again changes nothing |
| `StagePlan.ExpandAll` | netbox_proxbox/sync_types.py:216-250 | `all` expands to the thirteen stages, named one by one in order, and that list to itself |
| `StageRun.EveryScopeSettles` | netbox_proxbox/sync_stages.py:1385-1548 | For every oracle, each scope ends either with exactly one failed endpoint-scope record, as its last event, or with every required stage recorded as a configured skip or a result per path; a scope cut off by the deadline sends nothing |
| `StageRun.RequestsAreScoped` | netbox_proxbox/sync_stages.py:1010-1058 | Every request of a staged run carries exactly one backend id, that of its own endpoint, which is enabled and, if any requested text is a whole number, among those; and that endpoint's own modes |
| `StageRun.ScopesExactly` | netbox_proxbox/sync_stages.py:1010-1058 | The scopes of a run, by position: if a requested text is a whole number once stripped, the enabled ones among those texts, each as often as requested and in that order; otherwise all enabled endpoints |
| `StageRun.ScopesHas` | netbox_proxbox/sync_stages.py:1010-1058 | An endpoint gets a scope if and only if it is enabled and either was requested or no usable one was |
| `StageTheorems.EveryEndpointIsHeard` | netbox_proxbox/sync_stages.py:1385-1548 | In every run with a stage, an endpoint has a request or a record if and only if it is enabled and was requested, or enabled and no usable one was |
| `StageTheorems.ResultsWereRequested` | netbox_proxbox/sync_stages.py:1493-1543 | In every run, a result is recorded only directly after a request of the same endpoint and path |
| `StageTheorems.ScopeIsInOrder` | netbox_proxbox/sync_stages.py:1440-1548 | With an expanded plan, the requests and records of a scope come in the order of the stages |
| `StageTheorems.SkippedExactly` | netbox_proxbox/sync_stages.py:322-348 | A stage is skipped if and only if the endpoint's configured modes keep it off, spelled out for each stage through the cascade and the stored variables |
| `StageTheorems.UnresolvedExactly` | netbox_proxbox/sync_stages.py:1336-1382 | An endpoint the backend does not know sends nothing, and its scope fails, with exactly one record, if and only if its configured modes leave a stage of the plan on |
| `StageTheorems.MachinePaths` | netbox_proxbox/sync_types.py:278-291 | With selected machines, each of the four machine stages has one path for each selected id that is not empty, in order |
| `StageTheorems.SinglePath` | netbox_proxbox/sync_types.py:278-291 | In every other case a stage has one path, about no machine |
| `StageTheorems.PathFailsExactly` | netbox_proxbox/sync_stages.py:1593-1595 | A path fails its scope if and only if its call failed and the stage is none of the four optional ones, or time ran out |
| `StageTheorems.RequestsExactly` | netbox_proxbox/sync_stages.py:790-837 | Of one call, the first request goes out unless time is up; another follows if and only if the previous failed in a way worth retrying, it was not the third, and under a deadline there is time to wait and time left then |
| `StageTheorems.OutcomeExactly` | netbox_proxbox/sync_stages.py:892-1007 | A call ends with the answer of its last request if that succeeded, else failed; the failure is the deadline's exactly if time ran out or the error says so |
| `StageRun.ScopesAreIsolated` | netbox_proxbox/sync_stages.py:1440-1548 | Two runs that agree on the scopes of one endpoint (settings, answers, side of the deadline) show the same requests and records of it, whichever and however many other endpoints there are and whatever happens to them |
| `StageRun.RunShowsOwnScopes` | netbox_proxbox/sync_stages.py:1440-1548 | The requests and records of an endpoint in a run are exactly those of its own scopes, each run by itself, one after the other |
| `StageRun.ScopeSettles` | netbox_proxbox/sync_stages.py:1336-1382 | The same for one scope, resolved or not |
| `StageRun.StageSettles` | netbox_proxbox/sync_stages.py:1470-1546 | The same for one stage with its paths |
| `StageRun.ExecuteStage` | netbox_proxbox/sync_stages.py:892-1007 | The retry loop sends and ends as the recursive definition says, at most three requests |
| `StageRun.StageRunner.SetSyncModes` | netbox_proxbox/sync_stages.py:209-214 | Overwrites all shared mode variables, whatever the previous scope left there |
| `StageRun.StageRunner.RunPath` | netbox_proxbox/sync_stages.py:1493-1543 | One path: requests, then a result, a tolerated optional failure, or the scope's failure record |
| `StageRun.StageRunner.RunStage` | netbox_proxbox/sync_stages.py:322-348 | One stage: a skip decided by the shared mode variables as they are read at that stage, or its paths up to a failure; the result is that of the endpoint's own modes |
| `StageRun.StageRunner.RecordUnresolved` | netbox_proxbox/sync_stages.py:1336-1382 | An unresolved endpoint stores its own modes and gets only skips if all its stages are configured off under them, else one failure |
| `StageRun.StageRunner.RunScope` | netbox_proxbox/sync_stages.py:677-706 | A scope that stores its modes in the shared variables, which every stage reads again, does what it would do alone |
| `StageRun.StageRunner.RecordDeadline` | netbox_proxbox/sync_stages.py:1629-1652 | One failure for every scope left at the deadline |
| `StageRun.StageRunner.RunAllStages` | netbox_proxbox/sync_stages.py:1385-1548 | The whole loop over scopes: its events are those of the scopes one after the other, and its records are what it returns; which endpoints these are is `ScopesExactly` |
| `BatchScope.WireIdsOfJoin` | netbox_proxbox/sync_stages.py:458-462 | The comma-joined scope text is read back as exactly the ids it was made of |
| `BatchScope.ScopeMeaning` | netbox_proxbox/sync_stages.py:1167-1236 | A scope is resolved if and only if the backend answered and knows an endpoint of the run; its text names exactly the resolved ids |
| `BatchScope.OwnersByCluster` | netbox_proxbox/sync_stages.py:1304-1333 | The loop over rows collects, for every claimed cluster and no other, its whole set of claimants |
| `BatchScope.AskedExactly` | netbox_proxbox/sync_stages.py:466-551 | An object is dispatched if and only if it exists, its parameters can be built, and either exactly one endpoint claims its cluster and is in the run's resolved scope, or none claims it and the run names one backend id |
| `BatchScope.RefusedExactly` | netbox_proxbox/sync_stages.py:466-551 | And an object that is not dispatched gets 404 if it does not exist, 424 if its owners cannot be asked, and else the status of the error in building its parameters |
| `BatchScope.ClaimantWithoutId` | netbox_proxbox/sync_stages.py:489-551 | Whatever the scope, an object with one claimant for which the run has no backend id gets 424; if the run has no ids at all, no claim counts |
| `BatchScope.OwnersExactly` | netbox_proxbox/sync_stages.py:1239-1301 | Which rows claim an object: those of its own cluster, for a backup of its storage and else its machine, for a snapshot or task of its machine and else its storage |
| `BatchScope.SkippedExactly` | netbox_proxbox/sync_stages.py:1167-1236 | The endpoints reported as skipped are those of the run that the backend does not know, in order |
| `BatchScope.RequestsNameOneEndpoint` | netbox_proxbox/sync_stages.py:489-551 | A dispatched request names one backend id, of an enabled endpoint of the run, and of the claimant whenever there is one |
| `BatchScope.RunIsScoped` | netbox_proxbox/sync_stages.py:597-633 | The same for every request of a whole run |
| `BatchScope.RunOne` | netbox_proxbox/sync_stages.py:466-633 | One object: its report and its request, decided from the claims collected once for the batch |
| `BatchScope.RunSelected` | netbox_proxbox/sync_stages.py:427-645 | One result for each requested id that is not empty, in order and as often as it was requested, with the backend's status if it was dispatched and the status of the refusal if not; one request for each dispatched id, in order; succeeded is the number of results below 400, and succeeded plus failed the number of results |
| `BatchScope.RunAnswersAll` | netbox_proxbox/sync_stages.py:597-645 | The same, of the recursive definition and by positions in the requested list |
| `BatchScope.ReportsAt` | netbox_proxbox/sync_stages.py:635-645 | One result for each requested id, at its place |
| `KeyRetry.RequireBackendKey` | netbox_proxbox/jobs.py:1191-1241 | For every sequence of outcomes and hints: at most 10 checks, at most 180 s of sleep, each sleep in (0, 60] s and only after a retryable refusal; success only after a passed check, failure only where it gives up, deadline otherwise |
| `KeyRetry.SleepsExactly` | netbox_proxbox/jobs.py:1178-1241 | Each sleep follows a retryable refusal and is as long as its hint says, up to a minute, or else two seconds doubled for each attempt before, up to a minute; and never longer than the time left |
| `KeyRetry.AtMostSevenPlainAttempts` | netbox_proxbox/jobs.py:1164-1241 | Without hints and without a deadline, at most seven checks |
| `JobMerge.Pass` | netbox_proxbox/jobs.py:2017-2056 | The loop of each of the four local passes records what the recursive definition says, with a warning per endpoint from the deadline on |
| `JobMerge.OnePhaseEach` | netbox_proxbox/jobs.py:1962-2056 | The cluster and template passes record exactly one phase per endpoint, in order: the service's answer before the deadline, a warning from the deadline on |
| `JobMerge.PassIsClean` | netbox_proxbox/jobs.py:2399-2405 | A pass leaves no failed local phase if and only if every endpoint had its turn and reported no failure that survives the endpoint filter |
| `JobMerge.ResultRowsFail` | netbox_proxbox/jobs.py:2249-2266 | Exactly which failures of a firewall or datacenter answer survive the filter on endpoints |
| `JobTheorems.RowPhasesPicked` | netbox_proxbox/jobs.py:2249-2266 | A firewall or datacenter answer leaves one phase for each row about this endpoint, in order, and no other |
| `JobMerge.SyncJob.Run` | netbox_proxbox/jobs.py:2820-2892 | The whole job, with its staged or selected-object run performed by the models of those runs: its saved evidence, its merge call and how it ends |
| `JobMerge.SyncJob.RunPasses` | netbox_proxbox/jobs.py:2604-2626 | Every pass is checkpointed before the next one starts |
| `JobMerge.RunStages` | netbox_proxbox/jobs.py:2629-2654 | The stages of a job are the records of the staged run over its own endpoints |
| `JobMerge.SyncJob.RunBatch` | netbox_proxbox/jobs.py:1915-1932 | Selected-object run: scope, objects, evidence, failures, merge |
| `JobTheorems.MergesExactly` | netbox_proxbox/jobs.py:2577-2728 | A job calls the merge if and only if it has a branch, its key was verified, its preflight passed, and either no selected object failed or every local turn was clean and no endpoint scope failed; it ends without raising exactly then, unless the merge is refused |
| `JobTheorems.MergedJobRanEveryPass` | netbox_proxbox/jobs.py:2614-2738 | A merged staged job had a clean turn for every endpoint in the cluster pass and, unless targeted at single objects, in the firewall and datacenter passes and the template pass if it is not switched off |
| `JobTheorems.TargetedJobRunsOnePass` | netbox_proxbox/jobs.py:2868-2884 | What a targeted job does is independent of the other three passes |
| `JobTheorems.BatchExactly` | netbox_proxbox/sync_params.py:436-438 | A job is one for selected objects if and only if one of the requested ids is not empty |
| `JobTheorems.MergedBatchSyncedEveryObject` | netbox_proxbox/jobs.py:1900-1932 | A merged selected-object job has, directly before the merge, a result below 400 on record for every requested id that is not empty |
| `JobTheorems.CutPassNeverMerges` | netbox_proxbox/jobs.py:1962-1999 | If the deadline cuts the cluster or the template pass short, the job raises and does not merge |
| `JobTheorems.LateJobsMergeOnlyWithoutEndpoints` | netbox_proxbox/jobs.py:2657-2670 | Past the deadline a staged job can merge only if no endpoint was left to sync |
| `JobTheorems.LateJobWithoutEndpointsMerges` | netbox_proxbox/jobs.py:2696-2728 | And such a job does merge, having run no stage |
| `JobTheorems.ForeignRowsHideFailure` | netbox_proxbox/jobs.py:2249-2266 | A failed answer whose failing row names another endpoint leaves no phase at all |
| `JobTheorems.EvidenceFirst` | netbox_proxbox/jobs.py:2696-2728 | A staged job that raises for a failed scope or local phase has just saved all its stages and phases, with that failure among them and the matching note on its branch; a merge comes directly after complete evidence without a failure or a note |
| `JobTheorems.WholeSyncPhases` | netbox_proxbox/jobs.py:2731-2738 | Complete evidence of a whole sync is the preflight followed by the phases of the four passes over all endpoints, in this order |
| `JobTheorems.CrashKeepsPhases` | netbox_proxbox/jobs.py:2629-2654 | If the run over the backend does not return, the last thing the job saved is all its phases so far, without stages |
| `JobTheorems.PassesAreCheckpointed` | netbox_proxbox/jobs.py:2604-2626 | As soon as a pass is over all phases recorded so far are saved, with a note on the branch exactly if one of them failed, whatever happens next |
| `JobTheorems.JobIsCheckpointed` | netbox_proxbox/jobs.py:2577-2626 | In a whole job these saves follow the saved parameters, one per pass |
| `JobTheorems.TimeoutIsRecorded` | netbox_proxbox/jobs.py:2577-2601 | A job that runs out of time on the key check has a failed preflight phase for each endpoint saved, raises, and does not merge |
| `JobTheorems.LateJobRecordsEveryScope` | netbox_proxbox/jobs.py:2657-2670 | A job that raises past the deadline has exactly one failed scope for each endpoint on record |
| `JobTheorems.BatchEvidenceFirst` | netbox_proxbox/jobs.py:1878-1932 | With a resolved scope, exactly the results of the selected-object run are the last thing saved before the raise for them, and the thing saved directly before the merge; without a scope there is neither |
| `JobTheorems.EvidenceSurvivesMerge` | netbox_proxbox/jobs.py:1732-1780 | For every job, what follows the merge call: nothing if it merged; else exactly one save, of the same evidence, that notes the branch as left open or as not merged; only a refused merge is raised |
| `JobTheorems.RunWithoutFailure` | netbox_proxbox/jobs.py:2505-2514 | The records of a staged run show no failed scope if and only if no scope failed |
| `JobTheorems.MergedRunCoveredEveryScope` | netbox_proxbox/jobs.py:2629-2728 | A staged job that merges in time was not cut and settled every required stage of every endpoint scope of the run it performed |
| `JobTheorems.JobWithoutEndpointsNeverMergesInTime` | netbox_proxbox/sync_stages.py:1551-1565 | A staged job in time with no endpoint to sync raises and does not merge, because its run fails as a whole |
| `Png.ValidPng` | scripts/check_public_boundary.py:740-762 | Accepts if and only if the bytes are the signature followed by CRC-correct chunks, the first an IHDR of length 13, with one IEND, empty, ending at the end of input |
| `Png.DecompositionIsUnique` | scripts/check_public_boundary.py:740-762 | The chunk decomposition is unique, for every CRC function |
| `Png.ParseComplete` | scripts/check_public_boundary.py:740-762 | Every encoded list of chunks that ends properly is parsed back |
| `Png.ParseSound` | scripts/check_public_boundary.py:740-762 | Whatever parses is the encoding of the chunks it returns |
| `GitBatch.GitBlobs` | scripts/check_public_boundary.py:298-330 | The loop fills the dictionary of the records of the recursive parser, or raises what it raises |
| `GitBatch.ParseUndoesPrint` | scripts/check_public_boundary.py:298-330 | For every set of blobs with any bytes in them, parsing the concatenation of header, data and newline returns exactly those blobs |
| `GitBatch.AcceptsExactlyTilings` | scripts/check_public_boundary.py:312-330 | If no line of the output reads as a header with a negative size, parsing succeeds if and only if one record per object, in order, tiles the whole output without trailing bytes |
| `GitBatch.NegativeSizeAccepted` | scripts/check_public_boundary.py:315-329 | A header with size -1 is accepted although no records tile the output |
| `Archive.ScanData` | scripts/check_public_boundary.py:1070-1148 | Succeeds if and only if the blob is acceptable at this depth and its bytes and members at all levels fit the budget; then the findings are all findings in order, every body was inspected exactly once, and the budget is down by exactly the charges |
| `Archive.ScanArchive` | scripts/check_public_boundary.py:1000-1067 | The same for a ZIP or tar archive |
| `Archive.ScanMembers` | scripts/check_public_boundary.py:1030-1066 | The same for the loop over its members |
| `Archive.ScanMember` | scripts/check_public_boundary.py:905-948 | The same for one member and everything below it |
| `Archive.ScanFile` | scripts/check_public_boundary.py:987-991 | The same for a tracked file with a budget of 100 MiB and 10,000 members |
| `ArchiveTheorems.FindingsExactly` | scripts/check_public_boundary.py:951-1148 | A scan reports a finding if and only if the body at some place of the tree has it in its own text, bytes, comment or member metadata, however deep the place is |
| `ArchiveTheorems.FindingsAreGathered` | scripts/check_public_boundary.py:951-1148 | And it reports it as often as the inspected bodies themselves have it |
| `ArchiveTheorems.InspectsEveryBodyOnce` | scripts/check_public_boundary.py:1000-1100 | What is inspected is one body for each place there is in the tree of file members, none twice, in the order of the tree |
| `ArchiveTheorems.BeforeIsStrict` | scripts/check_public_boundary.py:1000-1100 | The order of the tree is strict, so that no place is inspected twice |
| `ArchiveTheorems.SuccessExactly` | scripts/check_public_boundary.py:857-1067 | A file is scanned successfully if and only if nothing at any place of its tree stops the scan (spelled out for every kind of body and member) and, over all inspected bodies, at most 100 MiB are charged and 10,000 members listed |
| `ArchiveTheorems.BytesAreCharged` | scripts/check_public_boundary.py:968-1067 | The bytes charged are the sum, over the inspected bodies, of what each archive charges for its own comment, stream, members and metadata |
| `ArchiveTheorems.CountIsListed` | scripts/check_public_boundary.py:45-48 | The members charged are the sum of the member lists of the inspected bodies |
| `Archive.ArchiveBudget.ChargeBytes` | scripts/check_public_boundary.py:40-43 | Charges exactly what fits, and nothing otherwise |
| `Archive.ArchiveBudget.ChargeMember` | scripts/check_public_boundary.py:45-48 | Charges one member while there is one |
| `Archive.SuccessIsBounded` | scripts/check_public_boundary.py:857-1067 | A successful scan visited at most 10,000 members in at most three nested containers, charged at most 100 MiB, inspected at most 100 MiB per charged member in every case, and at most 100 MiB in all if no tar member is stored sparsely |
| `Archive.InspectedByMembers` | scripts/check_public_boundary.py:968-978 | The bytes inspected below any acceptable archive are at most 100 MiB for each member at any level |
| `Archive.SparseMembersReachBound` | scripts/check_public_boundary.py:905-948 | That bound is reached: a tar stream of any number of sparse members is scanned in full |
| `Archive.Conservation` | scripts/check_public_boundary.py:894-902 | Every charged byte is a byte of an inspected body or overhead, over all levels |
| `Archive.NestsWithin` | scripts/check_public_boundary.py:867-868 | An acceptable archive nests at most three containers |
| `Archive.SparseMembersEscape` | scripts/check_public_boundary.py:894-948 | A small tar stream with two sparse members: the scan succeeds and inspects 200 MiB |
| `Pem.RedactPemBlocks` | netbox_proxbox/anonymize.py:329-348 | The loop computes the recursive redaction |
| `Pem.MarkerEndMeaning` | netbox_proxbox/anonymize.py:157-158 | What the regular expressions match at a position: the opening, 1 to 64 label characters and five dashes, in one way at most |
| `Pem.BlocksAreUnique` | netbox_proxbox/anonymize.py:329-348 | A text has exactly one division into blocks and kept text |
| `Pem.BlocksExist` | netbox_proxbox/anonymize.py:329-348 | And it has one: each block from a BEGIN marker to the end of the first END marker after it, or to the end of the text |
| `Pem.RedactCovers` | netbox_proxbox/anonymize.py:329-348 | The output is the kept text, verbatim and in order, with one placeholder per block |
| `Pem.RedactReplacesBlocks` | netbox_proxbox/anonymize.py:329-348 | The text and its output are the same kept pieces in the same order, with the blocks between them in the one and a placeholder for each in the other |
| `Pem.NoMarkerLeft` | netbox_proxbox/anonymize.py:329-348 | No BEGIN marker is left in the output of any text |
| `Pem.RedactKeeps` | netbox_proxbox/anonymize.py:329-348 | A text is left alone if and only if it has no BEGIN marker |
| `Pem.RedactTwice` | netbox_proxbox/anonymize.py:329-348 | A second pass changes nothing |

## Left out

- Archive.SuccessIsBounded: 100 MiB of inspected bytes in all is proved from the absence of sparse tar members and not the other way round; the bound kept in every case is 100 MiB per charged member, and the exact balance between charged and inspected bytes is `Archive.Conservation`.
- GitBatch.AcceptsExactlyTilings: its condition on the output is sufficient and not necessary, because data inside a blob may look like a header that is never read; the exact condition on the headers that are read is `GitBatch.TilesExactly`.
- RelayTheorems.RunIsolation: speaks about correlated runs; legacy runs have no run id, so the code cannot tell two legacy runs of one kind apart.
- StageRun.EveryScopeSettles: a failed optional stage leaves no record, so only required stages and configured skips are covered.
- JobMerge.OnePhaseEach: is about the cluster and template passes; the firewall and datacenter passes filter their rows, and `JobMerge.PassIsClean` says what is left of them.
- HTTP, WebSocket framing, TLS, Django queries, asyncio scheduling and RQ: what they answer is a parameter or a nondeterministic step.
- Credential loading, trust checks and the capability probe's HTTP details: only their outcomes appear.
- Message texts, log lines, display names, runtimes, JSON syntax and error wording.
- Float rounding of delays and deadlines: times are integer milliseconds.
- Tenant assignment after a selected-object sync and the sync-state backfill beyond whether it raises.
- Sync ownership markers in the job data: the run itself replaces that data.
- The dependency recursion of individual syncs: one reply per object.
- Python's limit on the length of decimal numerals in `int`, and digits outside ASCII.
- The text, Python-constant and JavaScript rules of the scanner, the other binary formats, and digest approval: their outcomes are parameters of `Archive`.
- ZIP and tar decoding: an archive is given by its members, with what reading each of them yields.
- The regular-expression rules of the anonymizer other than PEM blocks, and its placeholder maps.
- Views, templates, filtersets, forms, navigation, the CLI, release gates and compatibility checks: declarative or single-branch code.
