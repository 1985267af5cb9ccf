# ClusterPulse control plane: a verified model

ClusterPulse has an Agent on every node, which collects metrics and sends them to a Collector, and a
Collector, which stores them, evaluates alert rules, escalates, dispatches remediation actions back to the
Agents and keeps its tables small. This project models the part of it that behaves like one state
machine spread over many small files, and proves what that machine keeps over whole runs.

Times are integer microseconds, metric values are reals, tables are maps from row ids to rows. A SQL
`LIMIT` without `ORDER BY` is a free choice of rows.

**The Collector.** `Tables`, `Rules` and `Alerting` say what the queries, rules and verdicts compute. `Store`
and `Services` are the repositories and services as classes that change a database in place, each method
proved against those functions; `Retention`, `Reconciliation` and `StalenessSweep` do the same for the
three background jobs. `Machine` is the Collector as a small-step machine: one step is one repository call
(one commit), ingestion requests are serialized, and the job thread, acknowledgements and Agent reports (each a
read and, later, a write that checks nothing), heartbeats, failures and restarts interleave at every step. The
theorems about runs are in

- `MachineInvariants`: one firing alert per node and rule key, in every reachable state;
- `RetentionInvisible`: a simulation between the pruned system and one that keeps every row;
- `SafetyLimits` and `ForgottenDecisions`: the cooldown and the hourly limit, for decision times in any order, and
  exactly how long actions must be kept for them to hold;
- `HumansFirst`: nobody's alert is remediated before it was escalated and old enough, nor twice, and exactly what an
  acknowledgement stops;
- `Ingestion`: the request thread refines one function, and exactly when redelivery changes nothing;
- `Segmentation` and `SegmentationRuns`: the alert table equals an offline reading of the verdict history, first verdict
  by verdict, then commit by commit, with retention and without;
- `ActionStatus`: the life of an audit row, and exactly when a settled row is written again;
- `Acks`, `Notices` and `NodesSeen`: what Agents are told to do, what operators are told, and what the registry holds;
- `Protocol`: Collector and Agents over a network that loses responses;
- `LosingRuns`: from an empty database, the runs in which what these theorems allow does happen.

**The scheduler.** `JobScheduler` is the thread that runs all jobs, against a clock with bounded job
durations and wake-up delays.

**The Agent.** `LineFile` is the buffer file as text, `Buffer` the bounded queue kept in it, `Agent` the
store-and-forward cycle.

Where the code and its prose differ, the model follows the code, and the difference is a theorem where
it can be one:

- collector/jobs/reconciliation.py:13-16 says that a late result overwrites a timeout. The service refuses a result
  whose read finds the timeout (`Services.RemediationActionService.CheckDispatched`). It writes one whose read came
  before (`LosingRuns.TimeOutLostToResult`), and a timeout overwrites a result in the same way
  (`LosingRuns.ResultLostToTimeOut`). A settled row is written again only by those that read or listed it as
  DISPATCHED (`ActionStatus.RewrittenOnlyByEarlyReaders`), so it is final exactly when none of them is still to commit
  (`ActionStatus.FinalExactlyWhenUnclaimed`), and always if sweeps and reports on it do not overlap
  (`ActionStatus.WrittenOnceIfAtomic`).
- collector/services/remediation.py:53-55 says that a result is taken only once. Two retries of one report that overlap
  are both taken (`LosingRuns.ResultWrittenTwice`).
- collector/services/alerting.py:128 says that an acknowledgement suppresses further escalation. It does not stop the
  verdict that has already read the alert (`HumansFirst.AcknowledgedIsLeftAlone`,
  `LosingRuns.EscalatedAfterAcknowledgement`, `LosingRuns.DispatchedAfterAcknowledgement`).
- collector/jobs/scheduler.py:102-103 says that stop() lets the current job finish. It lets the whole pass finish, and
  a pass begin whose wait had already run out, since the loop looks at the event only while it waits; jobs start after
  it exactly if that pass has due entries to come (`JobScheduler.StartsAfterStopExactly`,
  `JobScheduler.StopDrainsOnePass`, `JobScheduler.PassMayBeginAfterStop`).
- agent/buffer.py:20-23 says that the oldest entry is evicted. A failed batch is put back at the tail, so a full
  buffer of more than 50 entries loses its 51st oldest (`Agent.OutageEvicts`).
- docs/adr/004-agent-buffering.md speaks of one JSON object per line. `splitlines` also breaks at characters that
  JSON does not escape, such as U+2028; a record with one of them is lost on reading, and only that one
  (`LineFile.SurvivorsAreReadBack`, `LineFile.RoundTripExactly`, `LineFile.BrokenRecordIsLost`,
  `Agent.OnlyBrokenReportsAreTorn`).
- collector/jobs/staleness.py:74 compares with `>=`, collector/services/node_registry.py:62 with `>`; the model
  has the job's comparison.
- Escalation and remediation are not looked at on the step that opens an alert
  (collector/services/alerting.py:185-186), even with delays of zero.

## Model

| member | source | states |
|---|---|---|
| Model.RuleKeyInjective | collector/rules/engine.py:77-110 | A rule key determines the kind and the metric it was built from |
| Model.RuleKeyNotReserved | collector/jobs/staleness.py:37 | No configured rule can produce the key reserved for the staleness job |
| Rules.EvaluateDistinct | collector/rules/engine.py:53-70 | A payload whose samples have distinct metric types yields verdicts with pairwise distinct rule keys |
| Rules.RuleEngine.EvaluateReadings | collector/rules/engine.py:53-117 | The loop returns, in payload order, a threshold verdict on every reading with such a rule and a rate verdict on every reading with something to compare with, and nothing else |
| Rules.EvaluateMeans | collector/rules/engine.py:72-117 | What each verdict says: key, kind, severity and description of its rule; the value read, or its rise over a stored sample of the window that none there is newer than; the bound; and a breach exactly if the comparison holds |
| Alerting.ApplyVerdictOk | collector/services/alerting.py:164-285 | Applying any verdict keeps the tables well formed: unique open alerts, ids below the counters, no dangling references |
| Store.AlertRepository.FindOpenAlert | collector/repositories/alert_repository.py:25-39 | Returns a firing alert of the node and key if there is one, and nothing only if there is none |
| Store.AlertRepository.PruneResolvedBefore | collector/repositories/alert_repository.py:135-166 | Deletes only expired, unreferenced resolved alerts, as many as there are up to the batch size, whichever the database picks |
| Store.NodeRepository.UpsertSeen | collector/repositories/node_repository.py:26-45 | The node was last seen at this moment, and first seen when it first was; nothing else changes |
| Store.MetricsRepository.BulkInsert | collector/repositories/metrics_repository.py:24-56 | One new sample for every reading, in payload order, with its metric, value, unit, node and both times; nothing else changes |
| Store.RemediationActionRepository.CreateAction | collector/repositories/remediation_repository.py:24-58 | Appends a row under a fresh id with the node, alert, key and time given, the playbook's name, action and parameters, and BLOCKED exactly if there is a reason; or fails and changes nothing when the alert does not exist |
| Store.RemediationActionRepository.MarkResult | collector/repositories/remediation_repository.py:60-80 | Rewrites status, reason and completion time of one row and nothing else, or fails and changes nothing |
| Store.RemediationActionRepository.FindLastAction | collector/repositories/remediation_repository.py:100-120 | Returns a row of the node and playbook that no other such row is younger than, and nothing only if there is none |
| Store.RemediationActionRepository.PruneTerminalBefore | collector/repositories/remediation_repository.py:159-187 | Deletes only expired rows that are not DISPATCHED, as many as there are up to the batch size |
| Services.RemediationEngine.CheckSafetyLimits | collector/remediation/engine.py:75-94 | No reason exactly if every earlier action of the playbook on the node is the cooldown old and the last hour holds fewer than the maximum; otherwise the reason that holds, the cooldown first, with its figures |
| Services.RemediationEngine.Decide | collector/remediation/engine.py:41-73 | Records nothing when remediation is off or unmapped, and otherwise exactly one row: about this alert, with the name, action and parameters of the key's playbook, dispatched exactly if both limits are clear |
| Services.AlertEvaluationService.Apply | collector/services/alerting.py:164-285 | One verdict changes tables and notifications as its specification says, and returns the alert it is about, as it is now, and the action it dispatched |
| Services.VerdictSettles | collector/services/alerting.py:164-285 | What that comes to: which alert it is about; every column of a new one; opening, escalating or resolving notified, once, with the row as written, and nothing else; at most one decision, with its playbook's command; and the action returned is that row if it is dispatched |
| Services.AlertEvaluationService.EvaluateAndApply | collector/services/alerting.py:147-162 | The verdicts of a payload are applied in order; every alert that changed is reported as it is now, and so is, in order, exactly every action added that is dispatched; if one verdict raises, those before it stay applied |
| Services.AlertEvaluationService.CheckFiring | collector/services/alerting.py:134-139 | The read of an acknowledgement refuses exactly as the machine's read of the same call does, whoever calls |
| Services.AlertEvaluationService.WriteAcknowledgement | collector/services/alerting.py:140-145 | Its write records who and when, whatever has become of the alert since, and nothing else |
| Services.AlertEvaluationService.Acknowledge | collector/services/alerting.py:127-145 | Both in a row: unknown and resolved alerts are refused without effect; a firing one records who and when and nothing else |
| Services.MetricsIngestionService.IngestPayload | collector/services/metrics_ingestion.py:34-80 | The payload is stored reading by reading; the Ack carries, in id order, exactly the rows added that are DISPATCHED, each with its rule's playbook, or none if evaluation raises, in which case what was stored and applied before stays |
| Alerting.AllDispatches | collector/services/alerting.py:147-162 | Whatever the verdicts, what they dispatch is in order every row they add that is DISPATCHED |
| Alerting.VerdictAnnounces | collector/services/alerting.py:164-285 | A verdict notifies exactly what it opens, escalates or resolves, with the row as written |
| Services.RemediationActionService.CheckDispatched | collector/services/remediation.py:57-63 | The read of a report refuses exactly as the machine's read of the same call does, whatever it says |
| Services.RemediationActionService.WriteResult | collector/services/remediation.py:64-69 | Its write settles the row, whatever it says by then, and nothing else |
| Services.RemediationActionService.ReportResult | collector/services/remediation.py:48-69 | Both in a row: a result is taken for a DISPATCHED action, and any other report is refused without effect |
| MachineInvariants.StepInv | collector/services/alerting.py:164-191 | Every step of the Collector keeps the tables well formed and what request and job thread have read still true |
| MachineInvariants.OneFiringAlertPerKey | collector/services/alerting.py:164-191 | In every reachable state at most one alert of a node and rule key is firing, whatever the job thread interleaves |
| RetentionInvisible.RunSim | collector/jobs/retention.py:68-112 | The pruned and the never pruned system stay in simulation along every timely run |
| RetentionInvisible.PruningUnseen | collector/jobs/retention.py:68-112 | Retention inserted anywhere leaves transitions, decisions, Acks, notifications, refusals, firing alerts and open dispatches as they were without it, when the windows outlast every look back plus the lag and no batch deletes a row under a call |
| SafetyLimits.RunTrail | collector/remediation/engine.py:75-94 | Over every run, the audit table is the trail of all decisions ever made less those past retention, what a request has read about the limits is what the trail says, and a decision is a dispatch if and only if no earlier one in the trail stands in the way |
| SafetyLimits.LimitsHold | collector/remediation/engine.py:75-94 | Over every run with retention, in whatever order collection times come, a playbook is dispatched if and only if no limit, counted over everything ever decided, stands in the way, when payloads lag at most so far behind retention that actions outlast lag and look back |
| SafetyLimits.LimitsHoldUnpruned | collector/remediation/engine.py:75-94 | The same with no condition at all over every run that deletes no action |
| ForgottenDecisions.LimitsHoldExactlyWhenCovered | collector/remediation/engine.py:75-94 | For every configuration that remediates: the limits hold over all runs in which payloads lag at most so far behind retention if and only if actions are kept for that lag and the longer look back, to the microsecond |
| ForgottenDecisions.LimitsForgotten | collector/jobs/retention.py:74-78 | The failing runs, from an empty database: decisions are reported and deleted as soon as retention may, and a payload as late as it may be is remediated as if they had never been |
| SafetyLimits.HourlyLimit | collector/repositories/remediation_repository.py:82-98 | No closed window of one hour holds more than the maximum of dispatches of a node, for decision times in any order |
| SafetyLimits.DispatchesAreSeparated | collector/remediation/engine.py:78-85 | Over whole runs with retention a dispatch lies at least the cooldown after every earlier decision, dispatched or blocked, about its node and playbook, in whatever order their times come |
| SafetyLimits.CooldownLimit | collector/remediation/engine.py:78-85 | A window narrower than k cooldowns holds at most k dispatches of a playbook on a node |
| SafetyLimits.DispatchRate | collector/remediation/engine.py:75-94 | Over whole runs with retention, faults and restarts a window of any width holds at most max times its hours, rounded up, and at most its cooldowns, rounded down, plus one |
| HumansFirst.HumanGetsFirstChance | collector/services/alerting.py:238-271 | When an action is decided its alert, as the verdict last read it, is unacknowledged, escalated, not yet remediated and old enough |
| HumansFirst.OneAttemptPerAlert | collector/services/alerting.py:246-263 | The actions of an alert are exactly the mark it carries or is about to get and the marks lost to failures between the two commits; at most one more than those lost, pruned or not |
| HumansFirst.OnlyTheVerdictInFlight | collector/services/alerting.py:216-271 | After an acknowledgement commits, only the verdict that had read the alert before can still escalate it, decide once, or mark it, according to where it stood |
| HumansFirst.AcknowledgedIsLeftAlone | collector/services/alerting.py:232-271 | An acknowledged alert never escalates again and no action is decided for it, whatever comes next, if and only if no request in flight is past its read of it |
| Ingestion.RequestRefinesIngest | collector/services/metrics_ingestion.py:34-80 | A request that nothing interrupts does, call by call, exactly what the one-shot specification says, and its Ack lists exactly its dispatches |
| Acks.AckListsDispatches | collector/services/metrics_ingestion.py:57-80 | Over any run an Ack that ends a request without a fault goes to the node whose payload it answers and lists exactly the actions dispatched since that payload arrived, in order; one brought forward by a fault lists none; and there are no others |
| Acks.EveryDecisionFollowsItsPlaybook | collector/remediation/engine.py:49-73 | Over any run every decision and every audit row is about the alert it was made for and carries the name, action and parameters of the playbook of that alert's rule |
| Acks.AckFollowsPlaybooks | collector/services/metrics_ingestion.py:73-80 | Whatever an Ack tells an Agent to do is what the playbook of its rule says |
| Notices.StepAnnounces | collector/services/alerting.py:193-285 | Every commit of every thread notifies exactly what it changes: an alert that is new, one that escalates, one that resolves |
| Notices.NewsIsToldOnce | collector/services/alerting.py:193-285 | Over any run with faults, restarts and retention, the opening of every alert there has ever been is notified exactly once, its resolution exactly once if it has resolved, deleted since or not, its escalation exactly once if it has escalated, and none of it before |
| NodesSeen.RegistryIsFirstAndLast | collector/repositories/node_repository.py:26-45 | Over any run the registry holds exactly the nodes ever heard of, each with the first moment and the last, in the order of arrival |
| Ingestion.RedeliveryIsIdempotent | collector/services/metrics_ingestion.py:34-80 | Ingesting a payload again only stores it again, changing no alert, action, counter or notification and dispatching nothing, if and only if the first time opened no alert whose delay is zero |
| Segmentation.StartsAreOpenings | collector/services/alerting.py:178-191 | The starts of the offline segmentation are the breaches that do not follow a breach, in order |
| Segmentation.EndIsFirstClear | collector/services/alerting.py:171-176 | A run of the offline segmentation ends at the first verdict after its start that is no breach |
| Segmentation.RunPoints | collector/services/alerting.py:216-271 | The offline reading's last breach, last acknowledgement and first due escalation or remediation are what their names say |
| Segmentation.TableIsSegmentation | collector/services/alerting.py:147-285 | For each node and key the alert rows correspond one to one, in order, to the runs of breaches of the verdict history, with all their times, remediation included |
| SegmentationRuns.RunIsSegmentation | collector/services/alerting.py:164-285 | The same after every commit of a machine run, the rows read as the verdict in flight will leave them, as long as no failure and no acknowledgement hits a verdict on the key between its commits and nothing is pruned |
| SegmentationRuns.RestingTableIsSegmentation | collector/services/alerting.py:164-285 | Between verdicts the table itself is the segmentation of the run |
| SegmentationRuns.PrunedRunIsSegmentation | collector/jobs/retention.py:68-112 | With retention the rows that are left are those of the segmentation of the run without it, and a run of breaches whose row is gone is over |
| ActionStatus.StatusOverRuns | collector/services/remediation.py:57-69 | BLOCKED never changes, nothing returns to DISPATCHED, and completed_at is set exactly for EXECUTED and FAILED |
| ActionStatus.RowChangesOnlyByWrites | collector/repositories/remediation_repository.py:60-80 | An audit row changes only under the mark of a sweep that lists it or the write of a report that has read it, to exactly what that writes |
| ActionStatus.ClaimsReadDispatched | collector/jobs/reconciliation.py:66-73 | Whoever may still write a row read or listed it as DISPATCHED at some moment of the run |
| ActionStatus.RewrittenOnlyByEarlyReaders | collector/services/remediation.py:57-69 | Whoever writes a settled row, at any point of any continuation, read or listed it as DISPATCHED before the commit that settled it and has held that claim since |
| ActionStatus.FinalExactlyWhenUnclaimed | collector/jobs/reconciliation.py:58-83 | A settled row is final, whatever comes next, if and only if nobody who read or listed it as DISPATCHED is still to commit |
| ActionStatus.WrittenOnceIfAtomic | collector/services/remediation.py:53-55 | A row whose sweeps and reports did not overlap until it was settled is written once: no continuation, overlapping or not, writes it again |
| LosingRuns.ResultLostToTimeOut | collector/jobs/reconciliation.py:66-73 | From an empty database: a result reported between listing and mark is overwritten by the timeout |
| LosingRuns.TimeOutLostToResult | collector/services/remediation.py:57-69 | From an empty database: a result whose read came before the timeout overwrites it |
| LosingRuns.ResultWrittenTwice | collector/services/remediation.py:57-69 | From an empty database: two overlapping retries of a report both settle the row |
| LosingRuns.EscalatedAfterAcknowledgement | collector/services/alerting.py:216-236 | From an empty database: an alert acknowledged after the verdict read it escalates all the same |
| LosingRuns.DispatchedAfterAcknowledgement | collector/services/alerting.py:238-271 | From an empty database: an action is dispatched for an alert acknowledged after the verdict read it |
| LosingRuns.TwoAttempts | collector/services/alerting.py:246-263 | From an empty database: a failure between the two commits leads to two actions for one alert |
| Protocol.ExecutedAtMostOnce | agent/scheduler.py:63-134 | Over any run with lost responses, retries, crashes and timeouts no action id is executed twice |
| Protocol.ExecutedWasDispatched | collector/services/metrics_ingestion.py:57-80 | Whatever an Agent executes was dispatched, and for that node |
| Protocol.AuditLogIsTrue | collector/services/remediation.py:48-69 | A row with status EXECUTED belongs to an action some Agent really executed with success |
| Protocol.WhatArrivesIsHandled | agent/scheduler.py:127-134 | Every action of every Ack that reaches an Agent has been run on that node, is still to be run there, or was forgotten in a crash |
| Retention.RetentionJob.Drain | collector/jobs/retention.py:105-112 | Whatever rows the batches pick, draining equals one bulk delete and takes one call more than the batches needed |
| Retention.RetentionJob.Run | collector/jobs/retention.py:68-103 | A sweep equals three bulk deletes, audit rows first, and its counts are the rows that are gone of each table |
| Retention.SweepLeavesExactly | collector/jobs/retention.py:68-103 | What a sweep leaves, row by row: which actions, alerts and samples stay, all as they were, and nothing else |
| Retention.BatchesIsCeiling | collector/jobs/retention.py:105-112 | The number of non-empty batches for n rows is n divided by the batch size, rounded up |
| Retention.BatchAbsorbed | collector/jobs/retention.py:68-89 | A batch committed before a full sweep leaves no trace after it |
| Retention.InterruptedSweep | collector/jobs/retention.py:68-112 | A sweep cut off at any committed batch and followed by a full one ends in the same tables as the full one alone |
| Retention.SweepIsSafe | collector/jobs/retention.py:73-83 | A sweep leaves no dangling reference, no firing alert and no dispatched action out |
| Reconciliation.ReconciliationJob.Run | collector/jobs/reconciliation.py:58-83 | Exactly the dispatches older than the timeout become FAILED, as timed out and now, in whatever order they are listed; nothing else changes; and they are counted |
| Reconciliation.AuditLogConverges | collector/jobs/reconciliation.py:58-83 | After reconciliation and retention at one instant no action is older than its window, and over-age resolved alerts are there only for younger actions |
| Reconciliation.ConvergesExactlyWhenTimeoutFits | collector/jobs/reconciliation.py:58-83 | Both halves hold of every well-formed database if and only if the dispatch timeout does not exceed the window, and so does each half alone |
| StalenessSweep.VisitOne | collector/jobs/staleness.py:72-103 | Visiting a node opens or resolves its own staleness alert as it should and leaves other nodes as alarmed as they were |
| StalenessSweep.VisitMeans | collector/jobs/staleness.py:72-103 | What a visit writes and tells: the alert of a node silent long enough, unless it is open or this is the first sweep, with all its columns; the end of the alert of one that is back; one notification for either; nothing else |
| StalenessSweep.SweepResult | collector/jobs/staleness.py:64-107 | In whatever order nodes are listed, after a sweep an alert is open exactly for the silent nodes (on the first one, for those that had one), and the counts are the sizes of the sets |
| StalenessSweep.SweepTells | collector/jobs/staleness.py:64-107 | Over a whole sweep one notification for every alert opened and every one resolved, with the row as written, and as many as are counted |
| StalenessSweep.RepeatIsQuiet | collector/jobs/staleness.py:64-107 | A second sweep at the same instant, in any order, changes no row, sends no notification and counts nothing opened or resolved |
| StalenessSweep.StalenessJob.Run | collector/jobs/staleness.py:64-107 | The sweep's loop visits every listed node once and counts what it does |
| JobScheduler.PeriodicJobScheduler.RunLoop | collector/jobs/scheduler.py:136-152 | The loop over mutable entries computes the specified schedule, a stop() counting up to the moment a wait runs out and no longer; with no schedules it returns at once |
| JobScheduler.PeriodicJobScheduler.RunAllOnce | collector/jobs/scheduler.py:115-123 | Every job runs exactly once, in order, whichever of them raise |
| JobScheduler.LoopKeepsSchedule | collector/jobs/scheduler.py:136-152 | At the top of the loop the clock is at most one pass of the other jobs past any due time |
| JobScheduler.SchedulerBounds | collector/jobs/scheduler.py:54-59 | No run starts early or later than the lateness bound; runs of a job lie its interval apart; within time T at most floor(T / interval) start |
| JobScheduler.NoStarvation | collector/jobs/scheduler.py:136-152 | While the loop goes on, every job has run often enough to account for the time that has passed |
| JobScheduler.PassIsProductiveAndWhole | collector/jobs/scheduler.py:140-152 | Every wake-up that is not a stop runs at least one job and leaves nothing due by then unrun |
| JobScheduler.StopDrainsOnePass | collector/jobs/scheduler.py:99-113 | After stop() the pass in progress finishes, or the one whose wait had run out begins, and no other: jobs start after it by less than the oversleep and those before them, and the loop is out within an oversleep and one worst-case pass |
| JobScheduler.StartsAfterStopExactly | collector/jobs/scheduler.py:140-152 | A job starts at or after stop() if and only if a pass whose wait ran out before it still has a due entry to come when the clock reaches it |
| JobScheduler.JobsMayStartAfterStop | collector/jobs/scheduler.py:99-113 | It happens with two jobs due together |
| JobScheduler.PassMayBeginAfterStop | collector/jobs/scheduler.py:147-152 | It happens with one job: a stop() between the end of the wait and the reading of the clock is followed by a whole pass |
| JobScheduler.FailuresAreContained | collector/jobs/scheduler.py:125-134 | Which jobs raise makes no difference to what runs when |
| LineFile.JoinThenSplit | agent/buffer.py:53-78 | Joining lines and splitting them again is the identity if and only if no line contains a separator |
| LineFile.UniversalUnseen | agent/buffer.py:53-57 | The newline translation of text mode makes no difference to the lines read |
| LineFile.WriteThenRead | agent/buffer.py:53-78 | What was written is read back, in order |
| LineFile.RecordsAreIndependent | agent/buffer.py:53-78 | Whatever the texts contain, reading a written file yields what each record would yield alone, in order |
| LineFile.SurvivorsAreReadBack | agent/buffer.py:53-78 | Reading a written file gives exactly the records whose text is a non-blank line without separators, in order, when no fragment of a broken text decodes |
| LineFile.RoundTripExactly | agent/buffer.py:53-78 | The round trip succeeds if and only if every record encodes to a non-blank text without separators, when no fragment of a broken text decodes |
| LineFile.CorruptLinesAreSkipped | agent/buffer.py:60-68 | Corrupt or blank lines anywhere between the records change nothing |
| LineFile.BrokenRecordIsLost | agent/buffer.py:60-68 | Among any other records, broken or not, a broken one is gone, and only that one |
| Buffer.FileBuffer.Read | agent/buffer.py:53-68 | The reading loop yields the records of the file, and nothing when it cannot be read |
| Buffer.FileBuffer.Enqueue | agent/buffer.py:33-41 | Appends and evicts from the front what exceeds the bound; a record with a broken text does not survive the write; says what a failed read or write does to the file |
| Buffer.FileBuffer.Drain | agent/buffer.py:43-48 | Takes the oldest entries up to the limit off the file and rewrites the rest |
| Agent.AgentScheduler.DrainBuffer | agent/scheduler.py:63-88 | The redelivery loop with its break and requeue computes the specified state |
| Agent.AgentScheduler.Collect | agent/scheduler.py:90-108 | The payload holds the samples of the collectors that worked and the errors of those that raised, in order |
| Agent.AgentScheduler.Run | agent/scheduler.py:51-61 | Any number of cycles over payloads of any content computes the specified run |
| Agent.FailureIsIsolated | agent/scheduler.py:90-108 | A collector that raises takes nothing from the others and leaves its message |
| Agent.WorkedAlone | agent/scheduler.py:90-108 | A collector that works adds its samples and no error |
| Agent.NothingIsLost | agent/scheduler.py:51-126 | Over any cycles, replies, bounds and texts what was collected is, as a multiset, acknowledged, dropped as fatal, evicted, torn by the file or still buffered |
| Agent.RunsWhatAcksBring | agent/scheduler.py:110-133 | Over any cycles and replies an Agent that remediates runs exactly the actions the Acks to its fresh sends bring, in order; Acks to redelivered payloads bring none, and one that does not remediate runs none |
| Agent.CycleEnds | agent/scheduler.py:110-126 | A cycle ends with the fresh send, whose reply alone decides whether the payload is acknowledged, dropped or buffered, and what is run |
| Agent.OnlyBrokenReportsAreTorn | agent/buffer.py:53-78 | Nothing is torn but reports whose text is blank or holds a line separator, and what a cycle leaves buffered is never one of those, whatever the file held before |
| Agent.AfterDrain | agent/scheduler.py:63-88 | From a buffer within its bound that holds no broken text, as every cycle leaves it, requeueing evicts nothing, and what remains is the rest beyond the batch followed by the unsent part of the batch, a suffix when at most 50 are buffered |
| Agent.CycleEvictsAtMostOne | agent/scheduler.py:110-126 | A cycle evicts at most one payload, exactly when the buffer stayed full and the fresh send must be retried, and tears at most the fresh one, exactly when that is kept and its text is broken |
| Agent.Outage | agent/scheduler.py:63-88 | After k cycles of an outage the buffer holds min(bound, n + k) payloads and max(0, n + k - bound) were evicted if no text is broken; exactly the broken ones are torn; at most two sends a cycle |
| Agent.OutageEvicts | agent/scheduler.py:86-87 | In an outage a full buffer loses its oldest payload if it holds at most 50, and its 51st oldest otherwise |
| Agent.Recovery | shared/constants.py:45 | After an outage each cycle takes the 50 oldest off, so the backlog is gone after exactly its length divided by 50, rounded up, cycles |

## Left out

- Routes, schemas, authentication, error mapping, migrations, ORM models, logging, dashboards and installers: no deep property.
- Metric collection from the operating system, the Telegram channel and message texts: a notification is an appended log entry, and a notification that fails is one too.
- The internals of the HTTP transport and its retries: a send ends in one of three replies.
- Exceptions other than transport errors on the Agent's send path.
- JSON encoding: an abstract pair of functions with stated hypotheses.
- Configuration parsing and the rule and playbook loaders: their validated facts are hypotheses.
- Rounding of floating-point values and times.
- Ingestion requests that race on one node: the code takes no lock there, so nothing is claimed.
- A restart of the job scheduler after a stop() that timed out, and the thread bookkeeping of start() and stop().
- The read and the commit inside one repository call, such as mark_result's own look-up of the row, are one step.
- Services.MetricsIngestionService.IngestPayload: a verdict that raises does so before its first write; a failure between the commits of a verdict is a fault event of the machine, which ends the request, job or call where it is.
- Services built without an alert evaluator, a remediation engine or a notifier.
- Reads for the user interface: get_alert, list_alerts, get_action, list_actions and the node registry's listing.
- The description text of a staleness alert is a constant, and readings have no labels.
- SegmentationRuns.RunIsSegmentation: says nothing of the staleness job's alerts, whose key no rule produces (StalenessSweep.SweepResult covers those), and sets aside runs with retention (SegmentationRuns.PrunedRunIsSegmentation covers those) and runs in which a failure or an acknowledgement hits a verdict between its commits, or an acknowledgement an alert resolved since its read: such a verdict is not applied as a whole.
- RetentionInvisible.PruningUnseen: counts two refusals of a request as the same whichever reason they give, since a pruned row is not found where a kept one is found settled; relies on a fixed tie-break among equally old samples.
- Ingestion.RedeliveryIsIdempotent: assumes distinct metric types in the payload and a fixed tie-break among equally old samples.
- Agent.AgentScheduler.Run: assumes that the disk works, and that a codec reads back what it wrote and takes no fragment of a broken text for a record; what a failed read or write costs is said by Buffer.FileBuffer.Enqueue.
- HumansFirst.AcknowledgedIsLeftAlone: assumes that update_last_fired and escalate_alert read the row afresh. The session does not expire rows on commit (collector/db/session.py:13), so this holds when its identity map has dropped the row in between; a row that is still mapped would be judged as it stood at an earlier read.
- JobScheduler.PeriodicJobScheduler.RunLoop: gives all entries one reading of the clock at the start, where collector/jobs/scheduler.py:139 reads it once per entry, some microseconds apart.
- Deleting a directory and restarting a service, the actions themselves: executing is one step with an outcome.
