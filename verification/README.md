# Verified model of the fleet controller

A Dafny model of the fleet controller and of the stateful engines around it, with proofs about whole runs.
`dafny verify dfyconfig.toml` checks everything.

The main part is the fleet controller as a timed transition system. Nodes enroll with tokens, send heartbeats
and reports, a monitor degrades silent nodes, administrators change the policy and delete nodes, and the
routing table says which servers may receive traffic. Every store statement, and every read of the shared
policy, is one step, so requests and the monitor's pass interleave freely; a ghost history records what the
store accepted.

| file | content |
|---|---|
| Text, FleetTypes, FleetStore, Events | texts, entities, the SQLite tables and the statements on them, the bounded event channel |
| Compliance, Enrollment, Monitor, FleetHandler, Summary | the policy check, token enrollment, the stale-node monitor, the HTTP handlers, the statistics, as methods that update the store in place |
| FleetRuns | the transition system: threads, scans, clock, history |
| FleetSafety, FleetStatus, FleetProvenance | what every run keeps: freshness of routes, who wrote a status, where verdicts come from and under which policies |
| FleetAlarms, FleetMixing, FleetExamples | exactly when an interrupted pass raises a false alarm, what a policy replaced during an evaluation can do, and the runs that show both |
| FleetAtomicity | steps that nothing interrupts do what the handler methods do |
| FleetEntry | how nodes got in: in time, and as their token grants |
| TokenBounds, TokenTightness | how many nodes a token yields under concurrency, and that the bound is reached |
| RemediationProtocol, RemediationAgent | remediation over a lossy link as a second transition system, and the agent's polling loop against the handlers |
| Remediation, RemediationExecutor | the two planners, and execution through shared pointers |
| Broadcast | the event fan-out as chained lossy queues with concurrent clients |
| AuthLockout, LockoutRuns | the lockout against failure histories, and its bound when requests are served concurrently |
| ShellQuoting, ProvisionScript | the provisioning command line through the shell and through the scripts' option loops |
| AuditRing, AlertCooldown, ResponseCache, Fingerprint | the audit ring, the alert cooldown, the TTL cache, TLS client fingerprints |

## Assumptions

The clock never goes back, random ids are drawn once, hashing is injective, foreign keys are enforced on every
database connection, and store statements do not fail, though a request may be cut off between any two of
them. Times are nanoseconds; where a column keeps whole seconds the truncation is explicit. Random ids, hashes,
clock readings, replies of servers, results of foreign commands and the order in which queries and maps deliver
rows are parameters.

## Where the code differs from what one might expect

- The policy compares item names with "OS FIPS mode", "Disk encryption" and "FIPS backend active"
  (internal/dashboard/fleet_handler.go:262-273); the agent sends "OS FIPS Mode" and "Disk Encryption" and never
  the third (pkg/fleet/agentchecks.go:59, 108). A report of agent checks therefore meets every policy:
  `AgentReportsMeetEveryPolicy`. The repository's README.md:281 promises that non-compliant devices are denied.
- The evaluation reads the shared policy anew for every item. A policy replaced in the middle can make a server
  routable under enforcement although its report meets no policy there ever was:
  `MixedPoliciesRouteFailingNode`. What holds in every run is that each item passed under the policy in force at
  its turn (`EnforcedRouteHasPassed`); `EnforcedRouteMeets`, `OneVerdictIffSameDemands` and
  `UndisturbedEvaluation` say exactly when that is one policy.
- A heartbeat turns a node online whatever its last report said (pkg/fleet/sqlite.go:190):
  `OnlineDespiteFailures` says exactly when, `HeartbeatHidesFailures` is the run. A policy change re-evaluates
  nobody: `PassedNodeIsRoutable`. Without enforcement a failed or unjudged node is routed like any other:
  `RoutableIff`.
- The monitor decides on the row it listed and may write over a newer heartbeat: `InterruptedPassDecides`.
  `NoFalseAlarmIff` gives the exact margin of heartbeat gap, pass delay and truncation; beyond it `FalseAlarm`
  demotes a node in the instant it was heard of.
- The use check and the use count of a token are separate statements. K concurrent enrollments can exceed the
  limit by exactly K - 1: `TokenYield`, `TokenBoundIsTight`. A request cut off between them leaves a node that
  is never counted.
- The lock check and the record of a failure are separate too: `ConcurrentWindowBound`,
  `ConcurrentBoundIsTight`.
- A cached response is at most a ttl old counted from when it was stored, not from when the server sent it:
  `TtlCountsFromStore`, `SlowAnswerIsStale`. A fetch that was under way during a write can put the older response
  back after the invalidation: `WriteIsSeenUnlessOvertaken`, `OvertakenWriteIsLost`.
- A result whose post timed out at the agent but still reaches the controller can be recorded while the agent is
  about to execute the same request again: `RunsOnceIffNothingIsLate`.
- `HasLockouts` compares strictly where the lock itself does not, and differs from it at exactly one instant.
- Quoting turns an empty argument into nothing; only an empty role can trigger that. The script path is not
  quoted at all: `ArgumentsSurviveShell`.
- The wizard passes a certificate and key on for proxies only (internal/tui/wizard/review.go:304-318), but the Linux
  script also wants them for a self-hosted server (scripts/provision-linux.sh:168-173), so none can be provisioned;
  and the macOS script stops at three options that the wizard gives a controller: `AcceptedConfigurations`,
  `ScriptReadsConfig`.
- An ALPN value containing an underscore cannot disturb the match of a fingerprint: `MatchIsPrefixLookup` needs
  no condition.
- `RequireMDM`, `GracePeriodSec` and the configured lockout duration are never consulted.

## Model

| member | source | states |
|---|---|---|
| FleetSafety.RoutableIsFresh | internal/dashboard/fleet_handler.go:533-569 | In every run, whatever the interleaving of handlers and monitor: a node that is routable under any policy is online, and was last heard of (enrollment, heartbeat or report) at most degradedAfter before the last completed monitor pass listed the nodes. |
| FleetSafety.EnforcedRouteHasPassed | internal/dashboard/fleet_handler.go:251-273 | In every run, policies being replaced at any moment: a node routable under an enforcing policy has been evaluated since it enrolled; the evaluation was opened under a policy that was not disabled, looked at every item, and every item passed under the policy in force when it was looked at. A new node is therefore never routable before a report. |
| FleetProvenance.EnforcedRouteSentPassingReport | internal/dashboard/fleet_handler.go:193-283 | Such a route goes back to a step at which the node, enrolled and by itself, started that very report, and to later steps, one per read, at which the policies it was held against were in force. |
| FleetProvenance.EnforcedRouteMeets | internal/dashboard/fleet_handler.go:261-273 | The report behind an enforced route meets any given policy if and only if, on each of its items that does not pass, that policy and the one in force at the item's turn agree whether to look. |
| FleetProvenance.UndisturbedEvaluation | internal/dashboard/fleet_handler.go:252-273 | If no step between the first and the last read changes what the policy asks for, the evaluation judges like the policy that opened it. |
| FleetProvenance.NodeEnrollsOnce | pkg/fleet/enrollment.go:96-131 | In every run a node id enrolls at most once, so a node that was enrolled when it reported and is now never left in between. |
| FleetProvenance.SourcedAlways | internal/dashboard/fleet_handler.go:193-283 | In every run each report being handled and each verdict recorded has its sending step and its policy reads in the run. |
| FleetMixing.MixedPoliciesRouteFailingNode | internal/dashboard/fleet_handler.go:261-273 | A run from the start in which a policy replaced between two items makes a server routable under enforcement, though its one report meets neither the policy before nor the one after. |
| CompliancePolicy.OnePolicyIsMet | internal/dashboard/fleet_handler.go:261-273 | A report that met every policy it was held against meets one given policy if and only if both agree on each item that does not pass. |
| CompliancePolicy.OneVerdictIffSameDemands | internal/dashboard/fleet_handler.go:261-273 | Whatever the report, an evaluation judges as a given policy would if and only if every read saw the demands of that policy. |
| FleetSafety.PassedNodeIsRoutable | internal/dashboard/fleet_handler.go:549-563 | Conversely, an online node whose last evaluation passed is routable under every policy: later policy changes are not applied to it. |
| FleetSafety.RoutableIff | internal/dashboard/fleet_handler.go:549-563 | In every run and for every policy: a node is routable if and only if its status was last written online and, only if the policy enforces, its last evaluation since enrolling let every item clear the policy read for it. Otherwise failed and unjudged nodes are routed too. |
| FleetSafety.PunctualNodeIsLeftAlone | pkg/fleet/monitor.go:75-103 | In every run: a node whose last accepted heartbeat is at most degradedAfter less one second old (to the nanosecond: less SECOND - 1) keeps its row unchanged through an atomic check, given degradedAfter is at most offlineAfter. NoFalseAlarmIff covers interrupted passes. |
| FleetSafety.StampIsStored | pkg/fleet/sqlite.go:184-193 | In every run the stored heartbeat of a node is the last accepted clock reading cut to whole seconds. |
| FleetSafety.StatusesStayKnown | internal/dashboard/fleet_handler.go:223-228 | In every run every writer leaves only the statuses online, degraded and offline in the table. |
| FleetSafety.KeysStayUnique | pkg/fleet/sqlite.go:48-73 | In every run no two nodes share a key. |
| FleetSafety.HashesStayUnique | pkg/fleet/sqlite.go:68-79 | In every run no two tokens share a hash, so the token looked up is the only one with the secret presented. |
| FleetEntry.NobodyEntersLate | pkg/fleet/enrollment.go:90-93 | In every run, whatever becomes of the token meanwhile, no node was ever created from a token that was past its stored expiry when it was checked. |
| FleetEntry.NodeIsAsGranted | pkg/fleet/enrollment.go:106-123 | In every run each node bears the name it asked for, the role of the token it came with, and the region it asked for or else the token's. |
| FleetEntry.EntryAlways | pkg/fleet/enrollment.go:77-136 | The invariant behind both holds after every run: tokens, as stored and as read, differ from those issued only in uses counted. |
| FleetAlarms.InterruptedPassDecides | pkg/fleet/monitor.go:68-91 | Over all runs and all interleavings with a pass: a node that was online when listed is demoted, to offline or degraded, if and only if the whole seconds of its last heartbeat before the listing were more than the limit old when the pass read its clock, whatever was accepted in between. |
| FleetAlarms.RowIsListed | pkg/fleet/monitor.go:69-76 | Whatever happens during a pass, the row it decides on is the one its query returned. |
| FleetAlarms.NoFalseAlarmIff | pkg/fleet/monitor.go:68-91 | No pass in any run, however interleaved, demotes a node heard of at most gap before the listing, by a pass that reads its clock at most delay later, if and only if gap + delay plus one second less a nanosecond fits into degradedAfter. |
| FleetAlarms.FalseAlarm | pkg/fleet/monitor.go:68-91 | For every gap and delay beyond that margin a run from the start whose last step demotes a node in the very instant its heartbeat was accepted. |
| FleetStatus.StatusIsLastWritten | pkg/fleet/sqlite.go:184-203 | In every run the status of a node is the one its last status-writing event left: enrollment, heartbeat, report or monitor. |
| FleetStatus.OnlineDespiteFailures | pkg/fleet/sqlite.go:189-191 | In every run a node whose last report had failures is online if and only if a heartbeat was accepted after that report and the monitor has not demoted the node since. |
| FleetStatus.HeartbeatHidesFailures | internal/dashboard/fleet_handler.go:286-298 | A run from the start that ends with an online node whose last report had a failure. |
| FleetSafety.SoundAlways | pkg/fleet/monitor.go:68-105 | The invariant behind these results holds after every run: times are ordered, silent online nodes are still in the running scan, and compliance equals the last verdict. |
| FleetRuns.StepBoard | pkg/fleet/sqlite.go:184-233 | Every step of the system changes what the invariants see of the nodes (row and history together) by exactly one of seven effects. |
| FleetAtomicity.UninterruptedReport | internal/dashboard/fleet_handler.go:193-283 | The store statements and policy reads of a report that nothing interrupts end in the same tables as the handler method under one policy. |
| FleetAtomicity.ReportEffectRow | internal/dashboard/fleet_handler.go:209-246 | What a whole report leaves: the report kept, the row with its counts, truncated heartbeat, status by failures and, unless disabled, the verdict; other rows, tokens and requests untouched. |
| FleetAtomicity.EnrollThrough | pkg/fleet/enrollment.go:90-136 | The check, the clock reading and the statements of an enrollment that nothing interrupts create exactly one node and count exactly one use. |
| FleetAtomicity.UninterruptedPass | pkg/fleet/monitor.go:68-105 | A monitor pass that nothing interrupts, listing and per-row writes together, checks exactly the rows there are. |
| TokenBounds.TokenYield | pkg/fleet/enrollment.go:83-136 | In every run with at most K enrollments on a token in flight at any moment: uses counted plus enrollments that passed the check never exceed MaxUses + K - 1; nodes created equal uses counted plus those not yet counted plus those lost to a cut-off request; with K = 1 the count never exceeds MaxUses. |
| TokenTightness.TokenBoundIsTight | pkg/fleet/enrollment.go:83-136 | For every MaxUses and K some run with at most K in flight ends with exactly MaxUses + K - 1 uses: the bound cannot be improved. |
| TokenBounds.TokensAlways | pkg/fleet/sqlite.go:263-317 | Conservation of token uses and the bound hold together after every run. |
| Enrollments.NewToken | pkg/fleet/enrollment.go:23-61 | A created token has the role, region and hash asked for, keeps positive uses and lifetimes as requested, gets one use and one hour otherwise, and starts unused. |
| Enrollments.Enrollment.CreateToken | pkg/fleet/enrollment.go:23-61 | Refused exactly for an empty role or by the store for a taken id or hash; otherwise one token row with the role and region asked for and with defaulted uses and lifetime is inserted and nothing else changes. |
| Enrollments.Enrollment.Enroll | pkg/fleet/enrollment.go:75-149 | A join means that the presented token existed, was not past its expiry and had uses left when checked, and that exactly one node, with the name requested, the role of the token and the region of either, and one use were recorded. With unique hashes the token is expired, used up or refused by the store if and only if the row says so; every refusal leaves the tables alone. |
| StaleNodes.Monitor.Check | pkg/fleet/monitor.go:68-105 | One uninterrupted pass grades every node by its elapsed time and offers one event per change, in listing order. |
| StaleNodes.Monitor.CheckRow | pkg/fleet/monitor.go:76-103 | One listed row, which may have changed or gone since: its new status, if any, is written over whatever the row has become and announced once; no other row changes. |
| StaleNodes.Monitor.constructor | pkg/fleet/monitor.go:30-51 | Limits left at zero become 90 and 180 seconds. |
| StaleNodes.CheckSettles | pkg/fleet/monitor.go:75-87 | After a check no node over degradedAfter is online and every node over offlineAfter is offline; no status improves; nothing but statuses changes, and only for nodes over a limit; a second check at the same time changes nothing. |
| StaleNodes.CheckedByZone | pkg/fleet/monitor.go:78-87 | Beyond the offline limit every node ends offline, in the zone before it exactly the online nodes are degraded, and below the limits nothing changes. |
| StaleNodes.AlarmsTellChanges | pkg/fleet/monitor.go:88-103 | A check announces exactly the status changes, once each, with the rows as changed, in listing order. |
| StaleNodes.TruncationMargin | pkg/fleet/sqlite.go:189-191 | A heartbeat gap never raises a false alarm if and only if the gap plus one second less a nanosecond stays within both limits: the exact price of storing whole seconds. |
| FleetTypes.Stored | pkg/fleet/sqlite.go:189-191 | A stored time is a whole second less than one second below the time it came from. |
| CompliancePolicy.Judge | internal/dashboard/fleet_handler.go:256-273 | Walking sections and items with a fresh read of the policy at each, the flag ends false if and only if some item does not pass under the FIPS backend name, or under one of the other two names while the policy read for it asks for that. |
| CompliancePolicy.VerdictByItems | internal/dashboard/fleet_handler.go:251-282 | Nothing is stored exactly under a disabled policy; otherwise non-compliance exactly when some item fails under the policy read for it, and always when an item of the FIPS backend name does not pass. |
| CompliancePolicy.AgentReportsMeetEveryPolicy | internal/dashboard/fleet_handler.go:262-273 | A report made only of the agent's own checks meets every policy and every mix of policies, whatever its statuses, because the names compared differ from the names sent. |
| FleetHandlers.FleetHandler.AuthenticateNode | internal/dashboard/fleet_handler.go:484-501 | Success yields a node holding the presented key; a missing key and an unknown key are told apart. |
| FleetHandlers.FleetHandler.constructor | internal/dashboard/fleet_handler.go:38-55 | Without a configured policy the handler audits and requires nothing. |
| FleetHandlers.FleetHandler.HandleEnroll | internal/dashboard/fleet_handler.go:162-191 | A refusal changes neither tables nor event queue; a join adds one online, unjudged node with the name, role and region due to it, on a token not past its expiry, counts one use and offers one event. |
| FleetHandlers.FleetHandler.HandleReport | internal/dashboard/fleet_handler.go:193-247 | Only the node the key belongs to can report, for itself, and only a decodable report; the report is kept, the row updated and judged, and the event offered shows the row before it was judged. |
| FleetHandlers.FleetHandler.SaveReport | internal/dashboard/fleet_handler.go:214-228 | The four statements before the event: report kept, counts, heartbeat and grade written. |
| FleetHandlers.FleetHandler.HandleCreateToken | internal/dashboard/fleet_handler.go:104-123 | Only an administrator creates a token, with the role, region and uses asked for, and any refusal leaves the tables alone. |
| FleetHandlers.FleetHandler.HandleGetRemediationPlan | internal/dashboard/fleet_handler.go:730-816 | An administrator gets the plan of the report the query returned; a node without reports is not found. |
| FleetHandlers.FleetHandler.EvaluateNodeCompliance | internal/dashboard/fleet_handler.go:251-283 | Writes whether each item passed under the policy read for it, and nothing at all when the policy read first is disabled. |
| FleetHandlers.FleetHandler.HandleHeartbeat | internal/dashboard/fleet_handler.go:286-298 | An accepted heartbeat turns its node online whatever its last report said; a refused one changes nothing. |
| FleetHandlers.FleetHandler.HandleUpdatePolicy | internal/dashboard/fleet_handler.go:509-530 | Only a known mode from an administrator replaces the policy; no node row is touched. |
| FleetHandlers.FleetHandler.HandleDeleteNode | internal/dashboard/fleet_handler.go:355-392 | Removes the node together with its remediation requests and announces it; every refusal changes nothing. |
| FleetHandlers.FleetHandler.HandleGetRoutes | internal/dashboard/fleet_handler.go:533-569 | Lists every server, newest enrollment first, and no other node; a server is routable exactly when it is online and, unless it is compliant, the policy read for its row does not enforce. |
| FleetHandlers.FleetHandler.HandleRequestRemediation | internal/dashboard/fleet_handler.go:584-648 | Records a pending request with exactly the actions and the dry-run flag asked for, and offers an event, only for an administrator, an existing node and a non-empty action list; other requests stay as they are. |
| FleetHandlers.FleetHandler.HandlePollRemediations | internal/dashboard/fleet_handler.go:651-672 | A node gets all its pending requests, each once, oldest first, and no others, and only its own. |
| FleetHandlers.FleetHandler.HandlePostRemediationResult | internal/dashboard/fleet_handler.go:675-728 | A result is recorded only for a request of the authenticated node; unknown and foreign requests are refused without effect. |
| FleetStore.SQLiteStore.CreateNode | pkg/fleet/sqlite.go:114-128 | Inserted with its name, role, region, key and status, whole-second times, no counts and no verdict unless id or key hash is taken; then nothing changes. |
| FleetStore.SQLiteStore.GetNodeByAPIKey | pkg/fleet/sqlite.go:236-244 | Finds a node with the key if and only if there is one. |
| FleetStore.SQLiteStore.UpdateNodeHeartbeat | pkg/fleet/sqlite.go:184-193 | The row gets the truncated time and turns online; all else stays, and a missing row stays missing. |
| FleetStore.SQLiteStore.UpdateNodeStatus | pkg/fleet/sqlite.go:195-203 | Only the status of one existing row changes. |
| FleetStore.SQLiteStore.UpdateNodeCompliance | pkg/fleet/sqlite.go:205-214 | Only the counts of one existing row change. |
| FleetStore.SQLiteStore.UpdateNodeComplianceStatus | pkg/fleet/sqlite.go:216-224 | Only the verdict of one existing row changes. |
| FleetStore.SQLiteStore.DeleteNode | pkg/fleet/sqlite.go:226-233 | The node and, by the cascade, exactly its own remediation requests and reports disappear; everything else stays. |
| FleetStore.SQLiteStore.CreateToken | pkg/fleet/sqlite.go:246-260 | Inserted with every field as given but a whole-second expiry unless id or hash is taken, which is reported. |
| FleetStore.SQLiteStore.StoreReport | pkg/fleet/sqlite.go:328-337 | A report is appended to those of its node; for a node that is gone nothing happens. |
| FleetStore.SQLiteStore.GetToken | pkg/fleet/sqlite.go:262-280 | Finds a token with the hash if and only if there is one. |
| FleetStore.SQLiteStore.IncrementTokenUsage | pkg/fleet/sqlite.go:309-317 | One existing token gets one more use; nothing else changes. |
| FleetStore.SQLiteStore.DeleteToken | pkg/fleet/sqlite.go:319-326 | Exactly that token disappears; nodes enrolled with it stay. |
| FleetStore.SQLiteStore.CreateRemediationRequest | pkg/fleet/sqlite.go:492-507 | Inserted with the node, actions and dry-run flag given, without completion time or result, if the id is new and the node exists. |
| FleetStore.SQLiteStore.CompleteRemediation | pkg/fleet/sqlite.go:544-554 | Marks an existing request completed with its result and time and leaves what was asked; a request deleted meanwhile does not come back. |
| Summaries.SummaryAddsUp | pkg/fleet/sqlite.go:354-426 | In every reachable state the total equals online + degraded + offline and the sum over roles; the sum over regions is the number of nodes with a region; fully compliant nodes are at most online + degraded. |
| Summaries.NothingGoesUncounted | pkg/fleet/sqlite.go:399-422 | For any table: total = fully compliant + offline + nodes that are not offline and have failures; and the sum over regions leaves out exactly the nodes without a region. |
| Summaries.KnownRowsAddUp | pkg/fleet/sqlite.go:354-426 | The same for any table all of whose statuses are known. |
| Summaries.StatusesCoverTotal | pkg/fleet/sqlite.go:365-386 | The three status counters cover the total if and only if no row has any other status. |
| Summaries.SumIsAll | pkg/fleet/sqlite.go:388-416 | The counts of a grouped column add up to the number of rows. |
| Summaries.CountStatuses | pkg/fleet/sqlite.go:365-386 | From the grouped rows in any order, the counters are the cardinalities of the sets of nodes they name. |
| Summaries.Collect | pkg/fleet/sqlite.go:388-416 | The map built from grouped rows holds every value that occurs, with its number of rows, and no other. |
| Summaries.GetSummary | pkg/fleet/sqlite.go:354-426 | Every number of the summary is the cardinality of the set of nodes it names. |
| RemediationProtocol.PendingIsOutstanding | pkg/fleet/sqlite.go:510-554 | In every run over a lossy link a request is pending if and only if it was made for the node and since then neither a result was recorded nor the node deleted. |
| RemediationProtocol.PollReturnsOutstanding | internal/dashboard/fleet_handler.go:651-672 | Every answered poll hands the loop exactly the outstanding requests of its node. |
| RemediationProtocol.RowIsAsAsked | internal/dashboard/fleet_handler.go:611-621 | In every lossy run a request still in the table has the node, the actions and the dry-run flag that were asked for. |
| RemediationProtocol.RanWasAsked | cmd/agent/main.go:235-279 | In every lossy run a node only executes requests that were made of that very node. |
| RemediationProtocol.NeverPendingAgain | pkg/fleet/sqlite.go:544-554 | Once a request that was made is not pending, it is not pending after any continuation. |
| RemediationProtocol.CompletedWasExecuted | cmd/agent/main.go:236-278 | In every run a completed request was executed by its own node, and every recording has an execution before it. |
| RemediationProtocol.NotRunAfterRecording | cmd/agent/main.go:235-279 | In every run in which no late post overtakes the loop, nothing is executed after its result was recorded, whatever posts and answers get lost. |
| RemediationProtocol.RunsOnceIffNothingIsLate | cmd/agent/main.go:197-279 | No run at all executes a request after its recording if and only if the link never delivers a post the client gave up on. |
| RemediationProtocol.LateLetterRunsTwice | cmd/agent/main.go:263-276 | A concrete run with one late delivery in which a request is executed again after the controller recorded it. |
| RemediationProtocol.TickLeavesUndelivered | cmd/agent/main.go:204-279 | After one tick of the loop exactly the requests whose post was not delivered are still pending; with nothing lost, none. |
| RemediationProtocol.RecordingsComplete | pkg/fleet/sqlite.go:544-554 | Serving the polled requests completes exactly those reported, with a result and time that were posted, and leaves every other row as it was. |
| RemediationProtocol.Served | cmd/agent/main.go:235-279 | Executing and posting one polled request after the other is the run of the transition system that the tables of Recordings describe. |
| RemediationAgents.PollLoop.Tick | cmd/agent/main.go:204-279 | One tick of the loop against the controller's own handlers: an answered poll of an authentic node serves every pending request, the tables end as the protocol says, and each result sent is the executor's entries for the request as polled; a node that is gone or has another key polls in vain. Every command run in the tick is an action of one of these requests that is not a dry run. |
| RemediationAgents.PollLoop.ServeAll | cmd/agent/main.go:235-279 | The loop over the polled requests handles every one, in order, and ends in the tables the protocol describes; nothing is recorded for a node deleted since the poll. Commands are run for requests that are not dry runs, and for their actions only. |
| RemediationAgents.PollLoop.Serve | cmd/agent/main.go:236-278 | One polled request is executed, running only commands among its actions and none in a dry run, and, if the post gets through and is accepted, recorded with that result. |
| RemediationAgents.PollLoop.Remediate | cmd/agent/main.go:239-254 | The result is the encoding of one entry per requested action over a plan made from the checks just made; a dry run starts no command. |
| RemediationAgents.CommandsRanFor | pkg/fleet/remediate/executor.go:98-141 | The commands started for a request are among its actions, and there are none in a dry run. |
| RemediationExecutor.Executor.Execute | pkg/fleet/remediate/executor.go:86-160 | One result per requested action. A result is skipped exactly for an unavailable action, manual exactly for one that is not automatic, pending exactly in a dry run, failed exactly when its own command reported an error or there is none for it, rebooting or successful exactly when it reported none; the output says which. Repeated ids sharing one pointer do not disturb each other's entries. |
| RemediationExecutor.Executor.ExecuteAll | pkg/fleet/remediate/executor.go:98-155 | The loop over the requested actions extends entries, slice and commands one by one. |
| RemediationExecutor.ResultsAreTold | pkg/fleet/remediate/executor.go:98-155 | Each result is told by the outcome of its own command, the one started after those of the results before it. |
| RemediationExecutor.OutcomeOf | pkg/fleet/remediate/executor.go:125-141 | Three actions report what their command says, any other reports that it has no executor, and only enabling FIPS can ask for a reboot. |
| RemediationExecutor.EntriesAt | pkg/fleet/remediate/executor.go:98-152 | One entry per requested action, in order, each decided by its own command alone. |
| RemediationExecutor.EntriesAreFinal | pkg/fleet/remediate/executor.go:98-152 | The seven-way case split of an entry in terms of the action and the outcome: which status it gets if and only if what, with which output; none is left executing, and nothing else of the action changes. |
| RemediationExecutor.CommandsAreRequested | pkg/fleet/remediate/executor.go:119-139 | A command is started for exactly the requested, available, automatic actions, as often as requested, and for nothing in a dry run. |
| RemediationExecutor.ProgressKeepsActions | pkg/fleet/remediate/executor.go:96-152 | Mutation through the pointers never changes what an action is, and never touches an action that was not requested. |
| RemediationExecutor.EntryFromProgress | pkg/fleet/remediate/executor.go:108-152 | Progress left on an action by an earlier entry does not show in a later one. |
| RemediationExecutor.Executor.BuildLookup | pkg/fleet/remediate/executor.go:90-94 | The lookup finds every available id, at its last position. |
| RemediationExecutor.Executor.Run | pkg/fleet/remediate/executor.go:122-134 | Three actions start a command; any other fails as having no executor, and only enabling FIPS can ask for a reboot. |
| RemediationExecutor.Executor.Perform | pkg/fleet/remediate/executor.go:108-150 | The available action after its turn is the entry the requester gets (EntriesAreFinal tells which), and a command was started only for an automatic action in a real run. |
| RemediationExecutor.Executor.ExecuteOne | pkg/fleet/remediate/executor.go:98-152 | One requested action, found in whatever state earlier entries left it: its entry is the one told from the actions before the call, and is also what the pointer leaves in the slice. |
| RemediationExecutor.Executor.ExecuteNext | pkg/fleet/remediate/executor.go:98-152 | One loop body extends entries, slice and commands as told from the actions before the call. |
| RemediationActions.Plan | pkg/fleet/remediate/executor.go:26-82 | The actions planned from a section, in item order, with all their texts and flags. |
| RemediationActions.AgentPlanCovers | pkg/fleet/remediate/executor.go:26-82 | The agent's plan has one action for each failed check with a remedy, in order, with the id, flag, status and instructions due to it. |
| RemediationActions.ControllerPlanCovers | internal/dashboard/fleet_handler.go:774-810 | The controller's plan has one entry for each failed check with a remedy, in report order, naming the check and passing on the remediation text, except where WARP only has to be connected. |
| RemediationActions.PlanItem | pkg/fleet/remediate/executor.go:33-78 | One failed item: at most one action, with the description and instructions of its id, pending if automatic and manual otherwise. |
| RemediationActions.PlanItems | internal/dashboard/fleet_handler.go:776-806 | The inner loop appends the entries of one section to the plan so far, each with the report's own remediation text and check name. |
| RemediationActions.PlansAgree | internal/dashboard/fleet_handler.go:774-810 | The two planners choose the same for a list of items if and only if they read every item alike. |
| RemediationActions.PlanReport | internal/dashboard/fleet_handler.go:774-810 | The nested loop plans the report's items in order, passing items left out. |
| RemediationActions.ControllerPlansLikeAgent | internal/dashboard/fleet_handler.go:774-810 | The controller's plan has the ids and flags of the agent's plans, section after section, if and only if every WARP text is read alike by both. |
| RemediationActions.AgentTextsReadAlike | pkg/fleet/agentchecks.go:204-244 | The three WARP texts an agent can emit are read alike. |
| RemediationActions.AgentReportsArePlannedAlike | internal/dashboard/fleet_handler.go:774-810 | For every report whose WARP texts are ones an agent can emit, the controller's plan has the ids and flags of the agent's plans of its sections, in order. |
| RemediationActions.ParseAction | cmd/agent/main.go:244-247 | Reading the text of a requested action as an id loses nothing. |
| RemediationActions.FlagsAreClassification | pkg/fleet/remediate/remediate.go:66-76 | Every planned flag of either planner equals the classification of its action. |
| Broadcasts.ClientsSeeInOrder | internal/dashboard/fleet_handler.go:83-102 | In every run: what a client was sent and still holds is a subsequence of the events offered to it, which are those broadcast since it registered; those broadcast are a subsequence of those published. |
| Broadcasts.EventsAreMissedOnlyWhenFull | internal/dashboard/fleet_handler.go:94-99 | A client misses nothing if and only if its buffer had room at every offer; nothing published is lost before the broadcast if and only if the channel had room at every send. |
| Broadcasts.OthersDoNotMatter | internal/dashboard/fleet_handler.go:93-100 | Removing every step of all other clients from a run leaves what one client sees unchanged: slow clients affect nobody else. |
| Broadcasts.RoundIsBroadcast | internal/dashboard/fleet_handler.go:93-101 | Offering the event client by client, in any order of the map, gives every client one offer and takes one event off the channel. |
| Broadcasts.Broadcaster.BroadcastOne | internal/dashboard/fleet_handler.go:92-101 | One turn of the loop: every client is offered the event once and full buffers stay as they are. |
| Broadcasts.Broadcaster.Register | internal/dashboard/fleet_handler.go:430-433 | A new client starts with an empty buffer and leaves the others alone. |
| Broadcasts.Broadcaster.Unregister | internal/dashboard/fleet_handler.go:434-438 | Exactly that client leaves. |
| LossyQueues.FirstInFirstOut | internal/dashboard/fleet_handler.go:94-99 | What came out of a bounded non-blocking queue, followed by what is inside, is what was accepted, in the order offered. |
| LossyQueues.LossNeedsFullBuffer | pkg/fleet/monitor.go:92-102 | Elements are lost if and only if some put met a full buffer. |
| Events.Offer | pkg/fleet/monitor.go:93-101 | A send never blocks and never disturbs what is queued; it is dropped only by a full buffer. |
| Events.Channel.Send | pkg/fleet/monitor.go:93-101 | The channel after a send is the channel before it, with the event unless it was full. |
| AuthLockout.AuthMiddleware.ServeHTTP | internal/dashboard/auth.go:57-114 | The answer, the audited action and the failure history of all addresses after one request, told from the history alone. A locked address is refused without its token being looked at; otherwise a protected path is served exactly for the header "Bearer " and the token, or for the bare token if that does not begin so itself. |
| AuthLockout.HeadersThatCarry | internal/dashboard/auth.go:81-90 | Exactly two headers carry a given token. |
| AuthLockout.AuthMiddleware.constructor | internal/dashboard/auth.go:40-50 | Five failures within 300 seconds, an empty history and nobody locked. |
| AuthLockout.AuthMiddleware.IsLockedOut | internal/dashboard/auth.go:116-133 | Locked if and only if the current run of failures is at least maxFails long and ended at most one window ago; deleting expired entries on the way changes no answer. |
| AuthLockout.AuthMiddleware.RecordFailure | internal/dashboard/auth.go:135-147 | The tracker keeps agreeing with the history grown by one failure of this address. |
| AuthLockout.AuthMiddleware.ClearFailures | internal/dashboard/auth.go:149-154 | A success ends the run of its address and of no other. |
| AuthLockout.AuthMiddleware.HasLockouts | internal/dashboard/auth.go:156-167 | True only if some address is locked; false only if every locked address last failed exactly one window ago. |
| AuthLockout.MiddlewareBoundsFailures | internal/dashboard/auth.go:57-114 | AC-7, requests one at a time: whatever other addresses do, no address gets more than maxFails wrong tokens evaluated within a closed interval of window length without succeeding in between. |
| LockoutRuns.ConcurrentWindowBound | internal/dashboard/auth.go:78-147 | AC-7 under concurrency, over all runs: with at most K requests of an address in flight at any moment, the failures in one such interval without a success are at most maxFails + K - 1. |
| LockoutRuns.ConcurrentBoundIsTight | internal/dashboard/auth.go:78-147 | For every maxFails and K a run with at most K in flight reaches exactly that many failures, in one instant. |
| AuthLockout.WindowBound | internal/dashboard/auth.go:78-109 | The same bound on any guarded history of one address. |
| AuthLockout.RunIsLongest | internal/dashboard/auth.go:135-147 | The counter is the length of the longest final run of failures with gaps of at most the window. |
| AuditRing.AuditLogger.Log | pkg/audit/audit.go:81-129 | The full log grows by the stamped event, the file and syslog hold the full log, the ring keeps representing its tail across wrap-around, and every listener has heard exactly what was logged since it joined. |
| AuditRing.AuditLogger.Record | pkg/audit/audit.go:89-115 | File, ring and syslog stay in step with the full log. |
| AuditRing.AuditLogger.Store | pkg/audit/audit.go:98-104 | The ring represents the tail of the log grown by the event, also when the index wraps. |
| AuditRing.AuditLogger.Notify | pkg/audit/audit.go:81-129 | Every listener hears the event exactly once. |
| AuditRing.AuditLogger.RecentEvents | pkg/audit/audit.go:139-168 | The tail of the full log read backwards: as many events as asked for, retained (1000) and logged, whichever is least; all retained for a non-positive limit. |
| AuditRing.AuditLogger.ReadBack | pkg/audit/audit.go:156-166 | Walking the slots back from the newest, wrapping below zero, meets the events in the reverse of the order logged. |
| AuditRing.NewestIsReversedTail | pkg/audit/audit.go:156-166 | Collecting the events from the newest back gives the tail of the log reversed. |
| AuditRing.AuditLogger.HasEvents | pkg/audit/audit.go:170-175 | True if and only if something was ever logged. |
| AuditRing.AuditLogger.AddListener | pkg/audit/audit.go:131-137 | A listener joins after the others and hears what is logged from then on. |
| AlertCooldown.AlertManager.OnEvent | pkg/alerts/alerts.go:87-121 | Off cooldown, compliance changes, failed logins and lockouts, credential warnings and critical credential or system events are dispatched and nothing else is; then every matching webhook gets one delivery, in order, and otherwise none does. |
| AlertCooldown.AlertManager.TryDispatch | pkg/alerts/alerts.go:94-107 | A pair never dispatched is dispatched; otherwise exactly when its last dispatch is at least the cooldown ago. |
| AlertCooldown.DispatchesApart | pkg/alerts/alerts.go:94-107 | Any two dispatches of one pair are at least the cooldown apart. |
| AlertCooldown.KeyInjective | pkg/alerts/alerts.go:94-95 | The joined key tells apart all pairs whose type has no colon. |
| AlertCooldown.AlertableIsColonless | pkg/alerts/alerts.go:123-137 | No alertable event type has a colon, so different alertable pairs never suppress each other. |
| AlertCooldown.KeyCollides | pkg/alerts/alerts.go:94-95 | With a colon in the type two different pairs would share a key. |
| AlertCooldown.AlertManager.Recipients | pkg/alerts/alerts.go:109-120 | One delivery per matching webhook, in configuration order. |
| AlertCooldown.MatchingInOrder | pkg/alerts/alerts.go:109-120 | Deliveries keep the order of the configuration. |
| AlertCooldown.MatchingGoesToFilters | pkg/alerts/alerts.go:139-150 | An address gets an alert if and only if one of its webhooks has no filter or one that names the event type. |
| ResponseCache.Client.Get | pkg/cfapi/client.go:77-130 | An unexpired entry answers without contacting the server; otherwise the answer is the decoded reply, and only a success is cached. |
| ResponseCache.DecodeSucceeds | pkg/cfapi/client.go:98-120 | A reply yields data if and only if it is an answer other than 429 whose envelope says success, and then its result. |
| ResponseCache.DecodeFails | pkg/cfapi/client.go:98-120 | Rate limiting hides whatever the body says, an unreadable body comes next, and a refusal names the first error listed. |
| ResponseCache.Client.Write | pkg/cfapi/client.go:134-181 | After a successful patch (as after put, lines 231-278, and delete, lines 282-324) no instant answers the path from the cache; a failed one changes nothing. |
| ResponseCache.Client.ClearCache | pkg/cfapi/client.go:326-331 | Nothing is answered from the cache afterwards. |
| CacheRuns.BoundedStaleness | pkg/cfapi/client.go:77-130 | In every concurrent run a cached answer was the server's at the instant it was served, and was stored less than the ttl ago; it is older than the ttl by at most the time its fetch took. |
| CacheRuns.TtlCountsFromStore | pkg/cfapi/client.go:122-128 | The ttl counted from the server's answer is honoured at every instant if and only if the entry was stored in the instant it was served. |
| CacheRuns.WriteIsSeenUnlessOvertaken | pkg/cfapi/client.go:175-178 | After a write and its invalidation no later run answers the path from the cache with something older if and only if no older fetch of the path is still waiting to be stored. |
| CacheRuns.SlowAnswerIsStale | pkg/cfapi/client.go:77-130 | With any latency a run from the start answers from the cache with something that left the server a full ttl ago or earlier. |
| CacheRuns.OvertakenWriteIsLost | pkg/cfapi/client.go:175-178 | A run from the start in which a fetch stored after a write and its invalidation hides the write. |
| ShellQuoting.RoundTrip | internal/tui/wizard/review.go:392-409 | Tokenising the joined quoted arguments by sections 2.2.1, 2.2.2 and 2.3 of the POSIX Shell Command Language returns them without the empty ones; it returns exactly them if and only if none is empty. |
| ShellQuoting.WordsQuote | internal/tui/wizard/review.go:392-409 | One quoted argument reads back as itself in front of anything; the empty one reads back as nothing. |
| ShellQuoting.WordsEscaped | internal/tui/wizard/review.go:408 | The escaped text of a quoted argument, single quotes included, reads back literally up to its closing quote. |
| ShellQuoting.ShellQuote | internal/tui/wizard/review.go:394-409 | The loop quotes exactly the arguments with a character outside the safe set. |
| ProvisionCommand.ArgumentsSurviveShell | internal/tui/wizard/review.go:211-229 | For script paths without quotes and backslashes: the first command of the script text is the script with exactly the built arguments if and only if the configuration has a role and every character of the path stands for itself. |
| ProvisionCommand.PlainCommandOnly | internal/tui/wizard/review.go:215-227 | A path that is empty or has a blank, a semicolon or a special character is not read as one word, whatever the arguments. |
| ProvisionCommand.OnlyRoleCanBeEmpty | internal/tui/wizard/review.go:261-373 | No argument but the role can be empty. |
| ProvisionCommand.BuildProvisionCommand | internal/tui/wizard/review.go:261-373 | Appending flag by flag yields the arguments of the configuration's role, in order. |
| ProvisionCommand.BuildProvisionExec | internal/tui/wizard/review.go:211-229 | The text handed to sh -c, with and without sudo. |
| ProvisionScripts.ScriptReadsConfig | scripts/provision-linux.sh:77-145 | Reading the built arguments, a script's option loop stops if and only if it is the one for macOS (scripts/provision-macos.sh:59-115) and a controller has a hostname, a hostname service or a tunnel name; otherwise every option ends with exactly the value of its own field for the role, and no other option is set. |
| ProvisionScripts.AcceptedConfigurations | scripts/provision-linux.sh:154-173 | Exactly which configurations pass the checks of roles, tiers and certificates that follow the loop: on Linux no self-hosted server does, as its certificate and key are never passed on. |
| ProvisionScripts.ShellReachesScript | internal/tui/wizard/review.go:211-229 | What the shell makes of the command line reads, from the script's first argument on, like the built arguments. |
| Fingerprints.FingerprintIgnoresOrder | pkg/clientdetect/clientdetect.go:164-209 | Any reordering of the offered suites gives the same fingerprint. |
| Fingerprints.FingerprintsAgreeIff | pkg/clientdetect/clientdetect.go:164-209 | Short of a collision of the digest, two clients have the same fingerprint if and only if they offer the same suites in whatever order and agree on the version named first and the start of the first protocol. |
| Fingerprints.CommasInjective | pkg/clientdetect/clientdetect.go:188-193 | The list of 16-bit suites can be read back from its text. |
| Fingerprints.Hex4Reads | pkg/clientdetect/clientdetect.go:191 | Four lower-case hexadecimal digits that read back as the suite. |
| Fingerprints.VersionTag | pkg/clientdetect/clientdetect.go:169-182 | Which tag stands for exactly which version. |
| Fingerprints.AlpnTag | pkg/clientdetect/clientdetect.go:195-202 | The first protocol as offered, cut to two characters. |
| Texts.Decimal | pkg/clientdetect/clientdetect.go:208 | Decimal digits without leading zeros that read back as the number. |
| Fingerprints.MatchIsPrefixLookup | pkg/clientdetect/clientdetect.go:259-277 | A computed fingerprint matches if and only if its version, count and ALPN are in the table, with that description, whatever the ALPN and the digest. |
| Fingerprints.ComputeJA4 | pkg/clientdetect/clientdetect.go:164-209 | Whatever algorithm sorted the suites, the loop prints the one fingerprint of the hello. |
| Fingerprints.SortedUnique | pkg/clientdetect/clientdetect.go:184-187 | A sorted list of the suites is unique, so sorting needs no particular algorithm. |
| Fingerprints.AnalyzeFIPSCapability | pkg/clientdetect/clientdetect.go:124-162 | Capable if and only if some suite name contains AES and GCM and none contains CHACHA20 or a banned cipher; the reason given is the first that applies. |
| Fingerprints.OffersIgnoresOrder | pkg/clientdetect/clientdetect.go:129-162 | What a client offers, and with it the verdict, does not depend on the order of its suites. |
| Fingerprints.Inspector.Record | pkg/clientdetect/clientdetect.go:74-79 | The log keeps the newest maxLog of all connections recorded, in order. |
| Fingerprints.Inspector.RecentClients | pkg/clientdetect/clientdetect.go:86-98 | The last n of everything recorded, as far as it is retained. |

## Left out

- ServeHTTP: the method serves one request at a time; concurrent requests are the subject of LockoutRuns. Deriving the address from headers (extractIP) is a parameter, and of an audit event only the action is recorded.
- MiddlewareBoundsFailures: requests one at a time; ConcurrentWindowBound is the bound for concurrent ones.
- PunctualNodeIsLeftAlone: an atomic check; NoFalseAlarmIff is the theorem for interrupted passes.
- GetSummary: all four queries see the same rows, as under the store's read lock; the query texts themselves are not modelled.
- HandlePostRemediationResult: undecodable bodies, which are refused before anything else happens.
- HandleRequestRemediation: undecodable bodies, likewise.
- HandleGetRemediationPlan: which of a node's reports the query returns is a parameter, since timestamps tie within a second; stored reports always parse.
- Tick: the result text is an encoding given as a parameter, and the tick is not interrupted; interleavings are the subject of RemediationProtocol.
- Run: enabling FIPS and installing or connecting WARP are foreign commands and appear as arbitrary outcomes.
- Plan: the instructions that depend on the operating system are parameters.
- ArgumentsSurviveShell: script paths with quotes or backslashes, for which the rest of the line may become part of the first word; finding the script on disk is not part of this model.
- ScriptReadsConfig: values of variables whose option is not given; the installed script and the scripts for other systems.
- AcceptedConfigurations: that the certificate and key files exist, and everything a script does after these checks.
- RoundTrip: double quotes, expansions and here-documents never occur in quoted output; the tokeniser gives up on them.
- ComputeJA4: the sorted copy comes from the library sort and the digest from SHA-256; both are parameters.
- AnalyzeFIPSCapability: the upper-case names of cipher suites come from the TLS library and are a parameter.
- Log: what the file held before, and writes to it or to syslog that fail.
- Recipients: the HTTP delivery of a webhook.
- Store statements that fail while the handler carries on.
- ListNodes filters other than the role, token listing, CSV or JSON encodings, SSE framing and periodic summaries.
- FIPSStats, the status checks that read files, processes or remote APIs, certificate handling and signing.
- The React dashboard, the terminal wizard's pages and the unprovision command.
