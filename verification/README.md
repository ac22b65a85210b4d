# What is proved about sage-run

sage-run runs coding agents: a gateway records what happens and asks operators for approvals, a runtime drives one
agent session, a deployer replaces the running platform in the cluster. This project is a Dafny model of its stateful
cores, with proofs of what they promise; `dafny verify dfyconfig.toml` checks the whole project.

Each file is one component and one module.

| file | what it models |
|---|---|
| Approvals.dfy | approval rows and the events that open, merge and resolve them; the replay of the event log |
| Replay.dfy | why that replay gives back the rows the live system had, and when the order of events matters to it |
| Segments.dfy | what the events of one task and tool leave behind, and from it exactly when a replay gives back the rows |
| Protocol.dfy | runtime, gateway and operator as interleaved steps, from the request to the answer the gated call gets |
| Merging.dfy | which requests can still be approved, and what merging one into an open row does to it |
| Subagents.dfy | the tracker that decides whether any subagent is still running |
| Session.dfy | the session loop: which result is returned and when the session raises |
| Transcript.dfy | the batcher that reports the conversation while other coroutines append to it |
| Tokens.dfy | token totals, from a subagent's progress to the counter on the task row |
| EventText.dfy | clipping text to a number of UTF-8 bytes (encoding as in section 3 of RFC 3629) |
| Evidence.dfy | trimming an evidence bundle in place to a byte budget |
| Grouping.dfy | grouping result rows into bounded occurrence groups |
| Secrets.dfy | the line editor of the `secrets:` section, against what loading the file as YAML gives |
| Values.dfy | merging chart values and composing the values of a deployment |
| Plan.dfy | what a deployment will create, roll, update and delete |
| Deploy.dfy | the deployment as a transaction with compensation |
| Backups.dfy | rotation of recovery sets |
| SyncJobs.dfy | background jobs, the guard on a source's settings, and the sync scheduler |
| Ordering.dfy, Options.dfy | stable sorting and the option type the others share |

Code that changes rows, lists or fields step by step is modelled by classes and methods with loops. Their contracts
give the whole new state as a function of the old one, and the theorems are about runs of those functions. A database
transaction, an HTTP call or an external command is one atomic step. Where a step may fail or be interrupted, the
model lets it fail, before or after its effect, and the results hold for every choice. Every lemma that needs
induction does it by an explicit recursive call; automatic induction is switched off throughout.

## Where the code promises less than one might expect

These are results too: each has a lemma that says exactly when the promise holds, or for which states and runs it fails.

- A second `approval_requested` for the same task and tool is merged into the open row and replaces its request id.
  The call with the displaced id can then only poll until it returns unapproved (`DisplacedRequestTimesOut`). If the
  row's prompt was already posted, no prompt names the new id either and it is never approved
  (`MergedRequestIsNeverApproved`). A call can still be approved exactly when its request was delivered for a known
  task, was not merged into a row with a recorded post id, and got a prompt of its own (`AskCanBeApprovedIff`).
- The replay orders events by task, timestamp and key, not by arrival. Only the order among events of one task and
  tool matters, and of two adjacent ones exactly when one is a decision or hides what the other wrote
  (`ReplayRebuildsLiveRows`, `ExchangeIff`, `OutOfOrderReplayDiffers`). For any order of arrival the rows come back
  exactly when sorting leaves the stretches between decisions as they were (`ReplayRebuildsIff`).
- A forced flush of the transcript reads the length again after its report. Messages appended during that report are
  marked as sent and never are (`AppendsDuringForcedReportAreLost`, `ExactlyOnceIffClean`).
- Progress under another tool id moves a task's ownership but not the pending id: the task's own end no longer clears
  the old id, which stays pending until a later signal names it (`ForeignProgressStrandsTheOldId`). An error result
  clears a failed `Agent` call but not a failed `Task` call, which stays pending until a terminal notification names
  it (`OnlyAgentErrorsClear`, `FailedTaskStaysIff`).
- A batch's tokens are the last total it mentions, not the largest, so a smaller result that follows the completed sum
  in the last batch hides it unless the terminal report shows as much (`ResultUsageHidesWorkflowTotal`,
  `CounterReachesTotalIff`).
- Clipped text is longer than the limit when the limit is smaller than the marker (`WithinLimitIff`).
- `set_secret.py` does not see a `secrets` key with a comment, quotes or an inline value; it adds a second one, and
  since YAML keeps the last of equal keys, the written name is all that is left (`UnseenHeaderLosesOthers`,
  `CommentedHeaderLosesEntry`). It edits the first of several entries of a name while the last one counts, and goes
  past entries it does not see (`PutGet`, `PutKeepsOthers`). A write updates the loaded mapping, and nothing else in
  it, exactly when its line lands in the name's entry, nothing below overrides that, and no other name is behind an
  unseen key or below an empty mapping (`PutIsUpdateIff`). Any number of writes do so when the only `secrets` key is
  one the editor sees and its section names nothing twice (`WritesAreUpdates`).
- `merge_values` is associative only where no mapping is merged onto an empty string, an empty list or a list of
  pairs (`AssociativeIff`).
- A resource moved between the chart and the extras is announced as both created and deleted
  (`MovedIsListedTwice`).
- Recovery restores the release values, but the release manifest only as far as the chart renders it again
  (`Cluster.Transact`). An entry the deployment added to the secret stays, whenever the Secret command took effect
  (`SecretRestoredIff`, `AddedEntryStays`).
- When the annotation after a delivered deployment fails, nothing is undone (`Cluster.DeployInCluster`).
- The scheduler does not look for an active sync. A pass keeps every source at no more than one active sync exactly
  when no due source has one, and a sync slower than its interval makes its source due (`PassKeepsSyncsAloneIff`,
  `SlowSyncIsDueWhileActive`).
- A deployment handed over to another platform version runs while its parent still holds the checkout lock, and is
  refused (`Cluster.DeployInCluster`).

## Model

| member | source | states |
|---|---|---|
| Approvals.FindOpen | shared/lib/approvals.py:22-37 | the row found is pending for that task and tool; none is found only when no row is |
| Approvals.FindByRequest | shared/lib/approvals.py:40-58 | the row found carries that task, tool and request id; none is found only when no row does |
| Approvals.Touched | shared/lib/approvals.py:73-151 | an event touches no row exactly when it is one of the ignored ones; otherwise an open row of its task and tool, or a new one exactly when there is none |
| Approvals.TouchedIsTheChange | shared/lib/approvals.py:73-151 | the named row is the only one an event changes or adds, and it then has the event's task, tool and time and is pending exactly when the event is no result |
| Approvals.OpenRowIsUnique | shared/lib/approvals.py:22-37 | with at most one pending row per task and tool, the search finds exactly that row, whatever the order |
| Approvals.ApplyKeepsOnePending | shared/lib/approvals.py:83-151 | no event ever makes a second row pending for a task and tool |
| Approvals.ResolvedRowsAreFinal | shared/lib/approvals.py:83-151 | a row that is resolved is not changed by any later event |
| Approvals.ApplyKeepsIdentity | shared/lib/approvals.py:83-151 | an event never changes which task and tool a row is for, nor its key |
| Approvals.ApprovalTable.FindOpenApproval | shared/lib/approvals.py:22-37 | the scan returns the most recently requested pending row |
| Approvals.ApprovalTable.FindApprovalByRequest | shared/lib/approvals.py:40-58 | the scan returns the most recent row with that request id |
| Approvals.ApprovalTable.ApplyApprovalEvent | shared/lib/approvals.py:65-153 | the new rows as a function of the old ones and the event; a fresh key is used up by every event |
| Approvals.ApprovalTable.BackfillApprovals | shared/lib/approvals.py:156-191 | deleting the tasks' rows and replaying their log gives the fold of the log in replay order; the count is that of the effective events |
| Approvals.ApprovalTable.ApplyInOrder | shared/lib/approvals.py:178-189 | the replay loop applies the events one by one, in order |
| Replay.ApplyProjects | shared/lib/approvals.py:65-153 | seen through the rows of one task, or of one task and tool, an event outside does nothing and one inside acts on those rows alone |
| Replay.FindOpenProjects | shared/lib/approvals.py:22-37 | the open row is found in the same place whether or not rows of other tasks and tools are there |
| Replay.FoldProjects | shared/lib/approvals.py:178-189 | folding a log shows each task and each tool only its own events: events of different tasks or tools commute |
| Replay.ReplayOrderOfScope | shared/lib/approvals.py:175 | the replay reads the events of a task, or of a task and tool, in their one strictly sorted order |
| Replay.LiveRowsAreFolded | gateway/event_collector.py:144-167 | the live rows of a task, or of a task and tool, are the fold of its events, apart from prompt deliveries |
| Replay.ReplayRebuildsLiveRows | shared/lib/approvals.py:156-191 | on every run, replaying any set of tasks gives back the live rows of a task and tool when only their own events were applied in replay order; likewise of a whole task |
| Replay.ReplayIgnoresOthers | shared/lib/approvals.py:167-177 | the replay selects only events of the tasks it was asked for |
| Replay.ExchangeIff | shared/lib/approvals.py:89-151 | exchanging two adjacent events of one task and tool changes the rows exactly when one is a decision and they differ, they are of one kind with different payloads, or no row is open and their times differ |
| Replay.SwappedReplayIff | shared/lib/approvals.py:169-189 | on a run where two adjacent events came against their timestamps the replay still gives back the rows if their order does not matter, and when they were the last two only then |
| Replay.EarlyResultReplayDiffers | shared/lib/approvals.py:129-151 | whenever a request is answered by a result with an earlier timestamp, after any events before, the replay builds other rows |
| Replay.OutOfOrderReplayDiffers | shared/lib/approvals.py:175 | such a run exists for every task and tool, request, verdict and pair of times |
| Segments.LiveRowsAreSegments | shared/lib/approvals.py:65-153 | on every run the rows of a task and tool are, one by one, the stretches of its events up to a decision: first time, last callback, last request, last preview that is not empty, and the decision |
| Segments.SameRowsIffSameSegments | shared/lib/approvals.py:65-153 | two event orders of a task and tool leave the same rows exactly when they have the same segments |
| Segments.ReplayRebuildsIff | shared/lib/approvals.py:156-191 | for every run, in whatever order the events came, the replay gives back the rows of a task and tool exactly when its events have the same segments sorted as they had as they came |
| Protocol.Gateway.EnsureApprovalPromptPosted | gateway/approval_broker.py:213-290 | only a pending row without a recorded post id gets a prompt; failures are recorded in the row, also when the message was posted and only its response was lost, and nothing else changes |
| Protocol.Gateway.ReceiveEvent | gateway/event_collector.py:124-253 | rows, prompts and task status after an event, as a function of the state before it |
| Protocol.Gateway.CheckClick | gateway/message.py:73-105 | which clicks are refused, and why, before anything is changed |
| Protocol.Gateway.ResolveApprovalAction | gateway/message.py:73-146 | an accepted click resolves the row; a refused one changes nothing |
| Protocol.ClickResolvesNamedRow | gateway/message.py:80-135 | the row an accepted click resolves is the row its prompt names, and no other row changes |
| Protocol.NextKeepsInv | gateway/event_collector.py:124-253 | every step of runtime, gateway and operator keeps the protocol's invariant and only extends the rows |
| Protocol.AskKeepsInv | runtime/session_entrypoint.py:1277-1286 | asking with a fresh request id keeps the invariant, merged or not |
| Protocol.PollKeepsInv | runtime/session_entrypoint.py:1295-1333 | a poll that ends the wait reports a decision some row with that request id really has |
| Protocol.PressKeepsInv | gateway/message.py:99-135 | a click keeps the invariant: a row is only ever resolved by a recorded click that names it |
| Protocol.ApprovedOnlyByItsOwnClick | runtime/session_entrypoint.py:1269-1336 | over every interleaving, a call returns approved only if a row with its own request id was approved by a click whose prompt named that id |
| Protocol.AtMostOneWaiting | shared/lib/approvals.py:22-37 | in every reachable state at most one approval per task and tool is pending |
| Protocol.FirstDecisionWins | gateway/message.py:99-134 | once resolved, a row never changes again, whatever is clicked or reported later |
| Protocol.DecisionReachesCaller | gateway/api.py:2007-2035 | a caller polling for a resolved request is given exactly that row's decision |
| Protocol.RequestFindsItsRow | shared/lib/approvals.py:40-58 | in a well-formed state a row's request id finds that row |
| Merging.CanBeApprovedIff | runtime/session_entrypoint.py:1295-1333 | some continuation returns a polling call approved exactly when a row with its request is approved, or is pending and a posted prompt names it |
| Merging.AskCanBeApprovedIff | gateway/approval_broker.py:220-272 | in every reachable state a call that asks can be approved later exactly when its request is delivered for a known task, no open row of its task and tool has a recorded post id, and a prompt is posted for it, whether the gateway learns of it or not |
| Merging.DisplacedRequestTimesOut | shared/lib/approvals.py:122-126 | on every continuation the call whose request was displaced by a later one is still polling or has returned unapproved |
| Merging.MergedRequestIsNeverApproved | shared/lib/approvals.py:122-126 | a request merged into a row whose prompt is already posted stays pending on every continuation, and no call returns approved with it |
| Subagents.SubagentTracker.SetPendingOwner | runtime/session_entrypoint.py:1553-1563 | re-owning a task drops its old tool id and adds the new one |
| Subagents.SubagentTracker.Observe | runtime/session_entrypoint.py:1968-2100 | the tracker's next state for every kind of message |
| Subagents.TrackRefines | runtime/session_entrypoint.py:2049-2074 | each fitting message keeps pending equal to the owners of live tasks and the unstarted launches |
| Subagents.HappenKeepsSound | runtime/session_entrypoint.py:1538-1563 | what really runs stays consistent: owners are distinct and launches are not owners |
| Subagents.PendingIsExact | runtime/session_entrypoint.py:1968-2100 | on every fitting stream, pending is exactly the owners of live tasks plus the announced but unstarted tools |
| Subagents.NothingPendingIff | runtime/session_entrypoint.py:2033-2035 | pending is empty exactly when no task runs and no launch is outstanding |
| Subagents.PendingAfterIff | runtime/session_entrypoint.py:2049-2100 | exactly which signals clear a pending id, and which make one pending |
| Subagents.StaysPendingIff | runtime/session_entrypoint.py:2049-2100 | over any continuation that does not launch the id anew it is still pending exactly when no signal cleared it |
| Subagents.OrphanStaysIff | runtime/session_entrypoint.py:2067-2074 | an id that owns no task stays pending, over any continuation that does not revive it, exactly until a terminal notification or an Agent error names it |
| Subagents.ForeignProgressStrandsTheOldId | runtime/session_entrypoint.py:2067-2074 | after progress under another tool id the old id stays pending exactly until a signal names it, whatever becomes of the task |
| Subagents.OnlyAgentErrorsClear | runtime/session_entrypoint.py:2093-2100 | an error result clears a pending id exactly when its tool was called Agent |
| Subagents.FailedTaskStaysIff | runtime/session_entrypoint.py:2093-2100 | a failed Task call stays pending, over any continuation that does not revive it, exactly until a terminal notification names it |
| Session.AgentSession.ObserveAll | runtime/session_entrypoint.py:1968-1982 | the tracker follows the message's blocks and any launch is remembered |
| Session.AgentSession.Run | runtime/session_entrypoint.py:1925-1945 | the loop's outcome as a function of the stream |
| Session.SessionEnds | runtime/session_entrypoint.py:1925-2091 | the session ends at the first settled result or the first event that is no message, and how |
| Session.NoPrematureResult | runtime/session_entrypoint.py:2028-2037 | a session that launched subagents returns a result that arrived with nothing pending, and on fitting streams with nothing running |
| Session.UnsettledStreamRaises | runtime/session_entrypoint.py:1934-1939 | a stream that ends after a launch without a settled result raises |
| Transcript.TranscriptBatcher.Report | runtime/session_entrypoint.py:1740-1746 | a report carries the slice up to the boundary and announces that boundary |
| Transcript.TranscriptBatcher.FlushConversationBatches | runtime/session_entrypoint.py:1735-1757 | the reports, the conversation and the sent count after a flush, for every interruption |
| Transcript.TranscriptBatcher.AppendTranscriptMessages | runtime/session_entrypoint.py:1774-1779 | appending and the flush that follows it |
| Transcript.FlushFullKeeps | runtime/session_entrypoint.py:1738-1747 | size-triggered batches keep exactly-once under appends at any await, unless the report is cancelled |
| Transcript.FlushRestKeeps | runtime/session_entrypoint.py:1749-1757 | a forced batch keeps exactly-once precisely when nothing is appended during it and it is not cancelled |
| Transcript.ExactlyOnceIffClean | runtime/session_entrypoint.py:1735-1779 | over every run the reports are the sent prefix, in order and without gaps or repeats, exactly when every flush was clean |
| Transcript.ConcatIsPrefix | runtime/session_entrypoint.py:1740-1746 | exactly-once reports concatenate to the first sent messages |
| Transcript.FinalFlushSendsAll | runtime/session_entrypoint.py:2150 | after a clean run an undisturbed forced flush has reported the whole conversation |
| Transcript.AppendsDuringForcedReportAreLost | runtime/session_entrypoint.py:1749-1757 | messages appended during a forced report are in no report, then or ever after |
| Tokens.UsageTotals.AnnotateWorkflowUsage | runtime/session_entrypoint.py:1092-1105 | the maximum is updated and the payload annotated with the sum over subagents |
| Tokens.TotalsAreMaxima | runtime/session_entrypoint.py:1099 | each subagent's entry is the largest total it has reported |
| Tokens.SumNeverDrops | runtime/session_entrypoint.py:1099-1103 | the annotated workflow total never decreases |
| Tokens.SumWithout | runtime/session_entrypoint.py:1102 | the sum over subagents does not depend on their order |
| Tokens.ExtractIncrementalTokens | gateway/event_collector.py:76-105 | a batch's total is that of the last message that mentions one |
| Tokens.TaskRow.Receive | gateway/event_collector.py:206-249 | the counter after an event is the larger of the old one and what the event shows |
| Tokens.CounterIsMaximum | gateway/event_collector.py:108-109 | over any sequence of events the counter is the maximum of its start and everything observed |
| Tokens.ItemTotalsAreMaxima | runtime/session_entrypoint.py:1092-1105 | over a whole conversation of progress and results each subagent's total is the largest it reported |
| Tokens.BatchShows | gateway/event_collector.py:76-105 | a batch shows the gateway the workflow total at its end when its last mention is annotated progress, otherwise the last plain total |
| Tokens.CounterIsMaxShown | gateway/event_collector.py:206-249 | after a session, with or without its terminal report, the counter is the maximum of its start and what each batch and that report mention last |
| Tokens.CounterReachesTotalIff | gateway/event_collector.py:206-249 | the counter reaches the workflow total exactly when it started there, or some batch ends in progress with the sum complete, or in a plain total at least as large, or the terminal report shows one |
| Tokens.TaskRowReachesWorkflowTotal | gateway/event_collector.py:206-209 | if no batch lets a smaller result follow its last counting progress, the task row reaches the workflow total, however the messages are batched |
| Tokens.ResultUsageHidesWorkflowTotal | gateway/event_collector.py:86-103 | every session whose sum is completed only in a last batch that ends in a smaller result, and whose terminal report is smaller too, leaves the row below the workflow total |
| EventText.RoundTrip | runtime/session_entrypoint.py:474-478 | decoding an encoding gives the text back |
| EventText.DecodeOfCutText | runtime/session_entrypoint.py:478 | decoding a cut encoding, ignoring errors, gives the whole characters that fit |
| EventText.FittingIsLongest | runtime/session_entrypoint.py:478 | those are the longest prefix whose encoding fits |
| EventText.ClippedToLongestPrefix | runtime/session_entrypoint.py:472-479 | a text that fits is unchanged, a longer one becomes its longest prefix leaving room for the marker, then the marker |
| EventText.WithinLimitIff | runtime/session_entrypoint.py:472-479 | the result keeps the limit exactly when the text fits or the limit leaves room for the marker |
| Evidence.HalvingShrinks | mcps/evidence.py:103-105 | halving a long excerpt makes the serialized sample strictly smaller, flag included |
| Evidence.OmittedCosts | mcps/evidence.py:92-93 | the omitted count adds at most its own entry |
| Evidence.PhasesCompose | mcps/evidence.py:83-107 | prefixes of groups, samples and excerpts compose over the three phases |
| Evidence.EvidenceBundle.PopSamples | mcps/evidence.py:85-86 | the group keeps its first samples, at least one, and the sample popped last had to go |
| Evidence.PhasesNeeded | mcps/evidence.py:83-91 | with one more group, or with the sample popped last, the original bundle would not have fitted |
| Evidence.EvidenceBundle.TrimSamples | mcps/evidence.py:83-86 | samples are popped from the last group on, one always stays, none is popped needlessly, and the phase ends within budget or with single samples |
| Evidence.EvidenceBundle.DropGroups | mcps/evidence.py:88-91 | groups are popped from the end, counted, one always stays, and the one popped last had to go |
| Evidence.EvidenceBundle.ShortenExcerpts | mcps/evidence.py:95-107 | excerpts shrink to prefixes until the bundle fits or all are short |
| Evidence.EvidenceBundle.FitEvidenceBudget | mcps/evidence.py:70-109 | survivors are prefixes, kept plus omitted is the original count, a result over budget by more than the count has nothing left to trim, and no group or sample that could have stayed was dropped |
| Grouping.CompactEvidence | mcps/integrations/mcp_splunk.py:162-215 | groups, order and cap as a function of the rows |
| Grouping.Grouped.Add | mcps/integrations/mcp_splunk.py:175-188 | the dictionary holds, in order of first appearance, exactly the rows of each key |
| Grouping.CountsAddUp | mcps/integrations/mcp_splunk.py:191-197 | the group counts add up to the number of object rows |
| Grouping.SummaryBounds | mcps/integrations/mcp_splunk.py:192-199 | first and last seen are the minimum and maximum of the group and the samples its earliest rows |
| Grouping.ProfilesIgnoreRowOrder | mcps/integrations/mcp_splunk.py:190-200 | permuting the rows leaves the multiset of count, first and last seen over all groups as it was |
| Grouping.CompactIgnoresRowOrder | mcps/integrations/mcp_splunk.py:190-203 | permuting the rows leaves count, first and last seen of the kept groups as they were, in the same order after sort and cap |
| Grouping.CapKeepsTheFirst | mcps/integrations/mcp_splunk.py:201-203 | no group dropped by the cap sorts before a kept one, and none is lost otherwise |
| Secrets.SecretFile.EnsureSecretSection | scripts/set_secret.py:131-143 | the section is found, opened or appended, and its bounds are right |
| Secrets.SecretFile.FindSectionEnd | scripts/set_secret.py:146-154 | the section runs to the next bare top-level key |
| Secrets.SecretFile.FindSecretBlockEnd | scripts/set_secret.py:157-163 | an entry's block runs to the next entry |
| Secrets.SecretFile.UpsertSecret | scripts/set_secret.py:166-203 | the index-driven edit is the recursive put on lines, and nothing is written when YAML refuses the result |
| Secrets.PutAtSpot | scripts/set_secret.py:166-197 | whatever the value, a write sets one line at a place that depends on the lines and the name alone |
| Secrets.PutGet | scripts/set_secret.py:166-197 | what is written is what loading the file gives for the name, for every value, exactly when the line stands in the name's entry under the secrets key and no later key, entry or value overrides it; otherwise the written value does not matter to the name at all |
| Secrets.PutKeepsOthers | scripts/set_secret.py:131-197 | what loading gives for another name stays as it was exactly when that name is not under a secrets key the editor does not see, not below the empty mapping it opens, and not the owner of the value line it takes |
| Secrets.UnseenHeaderLosesOthers | scripts/set_secret.py:131-143 | in every file whose secrets key the editor does not see, a write leaves the written name alone in the loaded mapping |
| Secrets.CommentedHeaderLosesEntry | scripts/set_secret.py:17 | a header with a comment over an entry of another name is such a file, for all names and values |
| Secrets.PutIsUpdateIff | scripts/set_secret.py:131-197 | every write of a name is an update of the loaded mapping, for every value, exactly when its line lands and no other name stands under an unseen key or below the empty mapping |
| Secrets.PutStaysTidy | scripts/set_secret.py:131-197 | a file whose only secrets key is seen, with no name or value repeated in its section, stays one after a write |
| Secrets.WritesAreUpdates | scripts/set_secret.py:166-203 | over any sequence of writes to such a file the loaded mapping is updated write by write and nothing else happens to it |
| Secrets.TidyReadsAlike | scripts/set_secret.py:173-193 | in such a file the editor finds for a name exactly what loading gives |
| Secrets.PutPut | scripts/set_secret.py:166-197 | a second write to a name equals writing only the second |
| Secrets.GetPut | scripts/set_secret.py:184-193 | in a file with one seen secrets key and no repeated names, writing a value changes no line exactly when the name already has it |
| Secrets.PutChangesNothingIff | scripts/set_secret.py:166-197 | in any file, a write changes no line exactly when the first value line of the first entry the editor sees under that name holds the value |
| Secrets.PutStaysInside | scripts/set_secret.py:179-193 | nothing before or after the section changes, and at most two lines are added |
| Secrets.PutOpensSection | scripts/set_secret.py:131-143 | without a section one is appended or opened in place, holding just the new entry |
| Values.MergeValues | sage_run/incluster.py:201-205 | the loop over the changed keys computes the merge in whatever order, raising exactly when it is undefined |
| Values.RightIdentity | sage_run/incluster.py:201-205 | merging nothing changes nothing |
| Values.LeftIdentity | sage_run/incluster.py:201-205 | merging onto nothing gives the changes |
| Values.MergeTwice | sage_run/incluster.py:201-205 | merging the same changes again changes nothing |
| Values.AssociativeIff | sage_run/incluster.py:201-205 | where both groupings are defined they agree for every base exactly when the later two trees do not clash |
| Values.ComposeCandidateValues | sage_run/incluster.py:265-302 | the composed values, the refused infrastructure change and the ill-shaped sections |
| Values.ComposedValues | sage_run/incluster.py:287-301 | replaced maps are exactly the rendered ones; deployer, infrastructure, ingress and unrendered keys stay |
| Values.ComposeTwice | sage_run/incluster.py:265-302 | composing again from the result gives the result |
| Plan.DeploymentPlan | sage_run/deployment.py:114-155 | the four lists, sorted, as sets and multisets of the manifests' keys; the PVC refusal |
| Plan.ClassifyKeys | sage_run/deployment.py:140-152 | the loops append each common key to the list of its action, in order |
| Plan.ChartListsAreApart | sage_run/deployment.py:137-155 | the chart's lists are duplicate-free and disjoint |
| Plan.ChartPlanPatches | sage_run/deployment.py:137-148 | carrying the chart plan out on the old manifests gives the new ones |
| Plan.ChartPlanEmptyIff | sage_run/incluster.py:243-248 | the chart plan is empty exactly when the manifests agree |
| Plan.CombinedChangesAreMerged | sage_run/deployment.py:223-230 | combined rolls and updates are the chart's and the extras' lists merged in order |
| Plan.CombinedSetsAreMergedIff | sage_run/deployment.py:138-139 | combined creations and deletions are merged lists exactly when no key is on both sides |
| Plan.MovedIsListedTwice | sage_run/deployment.py:138-139 | a key is both created and deleted exactly when it moves between chart and extras |
| Plan.ExtrasPlanPatches | sage_run/deployment.py:95-111 | the extras plan carries everything over except changed workloads with the same source checksum and count |
| Deploy.Cluster.OwnedExtras | sage_run/deployment.py:498-518 | exactly this instance's extras, or a refusal when a desired key is taken by a live object without its label |
| Deploy.Cluster.HelmValues | sage_run/incluster.py:220-262 | afterwards the release has the wanted values and manifest; Helm runs unless both already agree |
| Deploy.Cluster.ApplyPhase | sage_run/incluster.py:579-590 | whatever fails, only owned or wanted keys are touched; it succeeds exactly when every command works, and then every effect is there |
| Deploy.Cluster.Recover | sage_run/incluster.py:592-602 | it succeeds exactly when every command works, and then HEAD, secret entries, values and old extras are back and the new extras gone |
| Deploy.Cluster.Preflight | sage_run/incluster.py:493-565 | nothing changes, and a request proceeds exactly when its reads work, the release names its checkout, and it passes the drift, ownership, storage, validity, rotation, composition and backup checks |
| Deploy.Cluster.Transact | sage_run/incluster.py:578-603 | complete and delivered exactly when every command works; otherwise all is back, the secret up to entries it had added if its command took effect, unless a second command fails |
| Deploy.Cluster.DeployInCluster | sage_run/incluster.py:481-609 | an admissible request is complete exactly when every command works; it is delivered but unannounced when only the last annotation fails, and otherwise rolled back unless a second command fails; a refused one changes nothing; the lock ends as it was and a held one refuses, so a handover is refused |
| Deploy.RestoredFromAnywhere | sage_run/incluster.py:597-600 | re-applying and deleting restores all objects from any point exactly when no wanted extra took a foreign object |
| Deploy.DeliveredFromThere | sage_run/incluster.py:585-588 | the forward steps leave exactly the wanted extras owned and foreign objects alone, under the same condition |
| Deploy.SecretRestoredIff | sage_run/incluster.py:566-595 | the secret a rolled-back deployment leaves: every old entry is back, and the whole secret exactly when the Secret command took no effect or added no entry |
| Deploy.AddedEntryStays | sage_run/incluster.py:581-595 | every admissible request that adds an entry ends rolled back with the entry still there when only the command after the Secret step fails |
| Deploy.RedeployIsQuiet | sage_run/incluster.py:246-248 | after a completed deployment the same request composes the same values and an empty chart plan |
| Backups.BackupRoot.PruneBackups | sage_run/backups.py:25-45 | only candidates of the category go, the newest allowed number stays, nothing else changes |
| Backups.BackupRoot.CreateBackup | sage_run/backups.py:96-218 | it succeeds exactly when every step does; a failed one leaves an unmarked directory and removes nothing, a finished one is marked before older sets go |
| Backups.PrunedSize | sage_run/backups.py:42-45 | a prune leaves at most the allowed number, and exactly that many if it removed any |
| Backups.PublishedStays | sage_run/backups.py:212-216 | the set just published is never pruned by its own publication |
| Backups.NextKeepsInv | sage_run/backups.py:25-45 | a set that is gone has as many later completions of its category as are kept, after any step |
| Backups.LastCompletionsSurvive | sage_run/backups.py:212-216 | over every run of completions, failures, shields and foreign sets, the last completed sets of each category are there |
| Backups.OnlyCandidatesGo | sage_run/backups.py:31-41 | only completed, unshielded sets of the published category are ever removed, and only for newer ones |
| Backups.OthersDoNotCount | sage_run/backups.py:31-40 | incomplete, protected or foreign sets neither displace others nor are touched |
| SyncJobs.Tables.QueueBackgroundJob | shared/lib/background_jobs.py:23-46 | a queued row with a fresh id is added, if its source exists |
| SyncJobs.Tables.ClaimBackgroundJob | shared/lib/background_jobs.py:49-62 | exactly a queued job can be claimed; it is then running |
| SyncJobs.Tables.HeartbeatBackgroundJob | shared/lib/background_jobs.py:95-113 | exactly a running job can be refreshed |
| SyncJobs.Tables.FinishBackgroundJob | shared/lib/background_jobs.py:116-151 | exactly a running job can be finished; its duration is never negative |
| SyncJobs.Tables.RecordCompletedBackgroundJob | shared/lib/background_jobs.py:154-190 | a finished row is added, if its source exists |
| SyncJobs.Tables.ReconcileStaleBackgroundJobs | shared/lib/background_jobs.py:193-220 | exactly the running jobs without a recent sign of life are failed |
| SyncJobs.Tables.UpdateKnowledgeSource | gateway/api.py:2346-2385 | which updates are refused, and the source after an accepted one |
| SyncJobs.Tables.QueueKnowledgeSourceSync | gateway/api.py:2398-2425 | a sync is queued exactly for an enabled source without an active one |
| SyncJobs.Tables.DueSourceIds | knowledge-indexer/main.py:37-75 | exactly the enabled sources with an interval, none of whose syncs started within it |
| SyncJobs.Tables.QueueDueSources | knowledge-indexer/main.py:101-112 | exactly one scheduled sync is queued for each due source, and nothing else changes |
| SyncJobs.StepMovesForward | shared/lib/background_jobs.py:49-151 | one operation moves a job at most one status on and leaves an ended one alone |
| SyncJobs.JobsMoveForward | shared/lib/background_jobs.py:14-16 | over every run statuses never go back and an ended row is final |
| SyncJobs.ClaimedAtMostOnce | shared/lib/background_jobs.py:49-62 | over every interleaving at most one claim of a job succeeds |
| SyncJobs.OnlyIdleSourcesChange | gateway/api.py:2359-2382 | sensitive settings change only while no sync is active, and serving is then suspended |
| SyncJobs.SettingsKeptWhileActive | gateway/api.py:2359-2378 | from queueing to the end of a sync its source keeps connection, kind, and roots or whole config |
| SyncJobs.RequestedSyncIsAlone | gateway/api.py:2406-2424 | a sync asked for by hand is the source's only active one |
| SyncJobs.PassKeepsSyncsAloneIff | knowledge-indexer/main.py:37-112 | where no source had two active syncs, a scheduler pass leaves every source with at most one exactly when no due source had one |
| SyncJobs.ScheduledSyncIsNotAlone | knowledge-indexer/main.py:101-112 | a source that is due while one of its syncs is active has two active ones after the pass |
| SyncJobs.SlowSyncIsDueWhileActive | knowledge-indexer/main.py:64-73 | a sync that was asked for and claimed is active, and its source is due again as soon as its interval has passed since the claim |
| SyncJobs.NotDueWithinInterval | knowledge-indexer/main.py:64-73 | whatever follows, a source is not due again before its interval after a queued sync is over |

## Left out

- Events posted as `approval_result` by anything but a click on a prompt: the protocol's clicks are the only source of decisions.
- Task rerun (gateway/api.py:1740-1757) and the container monitor's overwrites (session-manager/container_lifecycle.py:504-547), which reset rows, status and token counters.
- shared/lib/task_queue.py and the ORM models are not part of this model; wait-time bookkeeping on the task row is absent and re-admission is a step that may happen at any time.
- Columns of approval rows that no decision depends on: workflow, creation and archive times. `gateway_delivery` and the update time it touches are modelled live but not compared after a replay, which does not rebuild them; neither are generated keys.
- Delivery of runtime events: a report that the gateway never receives counts as reported in the transcript; in the protocol an event may be lost.
- The batch size of the transcript is taken to be positive, and the timed flush is just another forced flush at any time.
- Redaction, regex normalisation and endpoint templates in grouping: rows arrive with their group key; the list of warnings is not modelled.
- JSON and YAML text: sizes are computed structurally with ASCII escapes, manifests and values are trees, and config lines are classified by what the editor's patterns match. Which edited texts YAML refuses is a parameter; anchors, merge keys and scalars over several lines are not read.
- Deploy.Cluster.HelmValues: an upgrade either takes its whole effect or none; what a half-done upgrade leaves in the cluster is not modelled.
- Deploy.Cluster.Apply: an applied extra has exactly the declared document; how kubectl merges it with fields set by others is not modelled, and the server's part of the object is arbitrary.
- Deploy.Cluster.ApplySecret: applying a Secret sets the entries it names and leaves the others.
- Deploy.Cluster.DeployInCluster: exceptions the handler does not name are not modelled; a failed backup, fetch or validation refuses before anything changes. The images of the composed values are given.
- Two resources with the same `kind/name` text in one manifest: the last one counts, so manifests are maps. Objects that the new chart and the new extras both declare are not modelled; the chart's own live objects count in the ownership check and are not followed further.
- Deployment preview, plan formatting, job manifests, SSH and local entry points, upgrade paths and secret verification.
- Backups: the dumps and copies inside one backup, each of which works or fails as given; partial failure while a directory is removed, and the contents of a recovery set. Completion times increase, as the caller holds the checkout lock.
- Background job scope, warnings and version ids; display names and alias conflicts of sources; the batch of 100 requests a worker reads; the advisory lock and the indexing work itself.
- Provider adapters, MCP tool wrappers, prompts, the UI, analytics and listing endpoints.
