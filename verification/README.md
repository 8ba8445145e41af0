# Verified model of the nano-harness session core

This project models, in Dafny, the part of nano-harness that keeps everything a
coding session does in one append-only log, and proves what the rest of the
program relies on. The log is a sequence of typed records; the sequence number of
an event is its position. A strict order automaton decides which records may
follow, and the components that read and write the log are modelled around it:

- `records.dfy`, `goals.dfy`, `surface.dfy`, `order.dfy`: the record vocabulary and
  its schema, the goal fold, the replayed transcript, and the order automaton.
- `order_facts.dfy`, `scans.dfy`, `notices.dfy`, `nodes.dfy`, `plans.dfy`,
  `goal_facts.dfy`: what holds of every valid log, and the agreement of the scans
  other components make with the automaton's own bookkeeping.
- `standing.dfy`, `order_laws.dfy`, `surface_laws.dfy`, `open_laws.dfy`: the same rules
  without the automaton, over the indices of the log alone: which record is allowed where,
  what the transcript shows, what a log leaves unsettled and how repair settles it.
- `journal.dfy`, `forks.dfy`: the exclusively written log, crash repair, and the
  seed, opening and ownership of a forked session.
- `live.dfy`, `compaction.dfy`, `plan_mode.dfy`, `scripts.dfy`, `engine.dfy`: one turn of
  the engine with its deferred closeout, beside records and manual compactions other
  parties commit meanwhile, and the transcript it leaves where nothing goes wrong.
- `settlement.dfy`, `goal_service.dfy`: the goal service, its compare-and-set
  mutations, activation, round admission and the settlement of stopped turns.
- `queue.dfy`, `worker.dfy`: the agent worker as atomic steps, one per critical section,
  and its notice queue against what the log owes.
- `editgraph.dfy`, `frontier.dfy`, `bisect.dfy`, `changes.dfy`, `hunks.dfy`: the
  linear-space Myers diff and its merged hunks.
- `utf8.dfy`, `decoder.dfy`, `ring.dfy`, `job.dfy`: UTF-8 decoding of job output
  (section 4 of RFC 3629, replacement as in section 3.9 of the Unicode Standard),
  the bounded output ring, and the job lifecycle.
- `spill.dfy`, `pool.dfy`: the preview of oversized tool results, and subagent pool
  accounting.

Code that updates fields is a class with methods proved against specification
functions; loops are loops with invariants; concurrency is a method per critical
section, with other parties' steps in between. Random choices stand for failures, panics,
cancellation, clocks and whatever other sessions do; what a model answers, what tools
return and which input waits are parameters of a turn (its script). Whether anything may
go wrong around a turn is a parameter too (`steady`), so that what a turn must achieve
undisturbed is stated as well as what it keeps in every case.

## Where the code does less than one might expect

Three statements one would like are false of the code; each has a lemma with a
concrete case and the exact condition under which the code does meet it.

- A manual compaction checks that the agent is idle and only then starts, so its
  records may fall inside a turn. A turn that started ends exactly when no compaction is
  open in the logs its closeout's step end and turn end meet (`Engine.RunTurn`). Where
  one is, the turn stays open, with its step open too in the first case, and blocks every
  later turn until the session is reopened and repaired (`Engine.CompactionInsideStep`,
  `Engine.CompactionInsideTurn`, `Engine.AbandonedForGood`). A provider panic inside a
  compaction the turn itself opened has the same effect, and alone on its log a turn is
  left open in no other way.
- A session's own plan-mode projection skips an inherited prefix, the validator does
  not. They agree exactly when the session recorded a mode itself or the prefix ends
  outside plan mode (`Plans.ModesAgree`); a fork whose completed turns end in plan mode
  cannot enter it (`Plans.InheritedModeRefused`, `Plans.PlanningParent`).
- The settlement scan keeps one cancelled round. What it revokes is exact for every
  revision (`Settlement.RevokedWhen`), and it is every stopped revision exactly unless
  cancelled rounds alone stopped one and another revision's followed
  (`Settlement.StopsRevokeUnless`, `Settlement.SupersededPause`); the current revision of
  an accepted history never is such a one (`Settlement.RevokedExactly`).

## Model

| member | source | states |
|---|---|---|
| `Order.ValidateOrder` | internal/adapter/session/jsonl/order.go:24-251 | The loop over the events and the replay-surface pass accept exactly the logs the fold accepts (closed when that is required), and return the fold's final state. `OrderLaws.AcceptedExactly` and `OrderLaws.ValidExactly` say which logs these are. |
| `OrderFacts.RemoveOnce` | internal/adapter/session/jsonl/order.go:253-260 | Removing from a list without repeats removes exactly the target and keeps the list free of repeats. |
| `OrderFacts.InvStep` | internal/adapter/session/jsonl/order.go:31-250 | Every accepted record keeps the relations between the validator's variables: where the log stands, pending calls with their ordered list, open questions with the calls they name, owed notices with their IDs. |
| `OrderFacts.InvHolds` | internal/adapter/session/jsonl/order.go:24-251 | Those relations hold of the final state of every log the order rules accept; in particular nothing is pending outside an open step. |
| `OrderFacts.ValidPrefix` | internal/adapter/session/jsonl/order.go:24-251 | Every prefix of a valid log is valid. |
| `OrderLaws.AcceptedExactly` | internal/adapter/session/jsonl/order.go:31-250 | For every kind of record, over the indices of the log: a valid log accepts the record exactly when the schema does, its lifecycle rule is met (a call, for instance: its turn and step started and did not end, an assistant message followed the step's start, and every earlier call of its ID has a later result), the goal rules allow it, and the transcript can show it. |
| `OrderLaws.ValidExactly` | internal/adapter/session/jsonl/order.go:24-251 | So the valid logs are exactly those in which every record is allowed where it stands. |
| `OrderLaws.FactsAgree` | internal/adapter/session/jsonl/order.go:24-251 | Each variable of the validator is a fact of the log, begun by one record and not ended by a later one: open turn and step, latest numbers, pending calls and questions, todo and search records, owed notices, catalogued children, the current goal with its rounds and creation. |
| `Scans.NextTurn` | internal/app/agent/engine.go:409-417 | The engine's loop returns one more than the highest turn started in the log. |
| `Scans.NextTurnAgrees` | internal/app/agent/engine.go:409-417 | On every valid log that highest turn is the validator's last turn, so the engine's next turn is the only one accepted next. |
| `Scans.FindUnresolved` | internal/app/agent/engine.go:423-440 | The engine's loop lists the undecided questions and the calls that have no result yet, as the step-by-step definition says. |
| `Scans.UnresolvedAgrees` | internal/app/agent/engine.go:423-440 | On every valid log these lists are, in order, the validator's own pending approvals and calls, although the engine deletes every occurrence and the validator only the first. |
| `Journal.FindOwnEvents` | internal/core/session/subagent.go:16-23 | The backward scan returns the events from the position the last descriptor names, or all of them. |
| `Journal.Log.Append` | internal/adapter/session/jsonl/jsonl.go:302-335 | A record is committed exactly when the schema, the order rules, the replay surface and sandbox ownership accept the longer log; a refused one changes nothing. |
| `Journal.SwitchesOwned` | internal/adapter/session/jsonl/sandbox.go:7-14 | A log passes the ownership check exactly when no own record of a root is a delegated sandbox switch, and no own record of a child a human one. |
| `Journal.SwitchAccepted` | internal/adapter/session/jsonl/sandbox.go:7-14 | An append keeps an owned log owned exactly when it is no sandbox switch of the other kind. |
| `Journal.Log.RepairInterrupted` | internal/adapter/session/jsonl/jsonl.go:393-431 | Repair of any valid log ends with a closed valid log that extends it by exactly the planned repair records, which `OpenLaws.RepairIs` spells out. |
| `Journal.RepairStep` | internal/adapter/session/jsonl/jsonl.go:393-431 | The first repair record is accepted in the state it was computed from and leaves exactly the other repair records to append. |
| `Journal.RepairAppends` | internal/adapter/session/jsonl/jsonl.go:399-429 | Each record repair appends is accepted where it is appended. |
| `Journal.RepairPrefix` | internal/adapter/session/jsonl/jsonl.go:393-431 | Stopping repair after any number of records leaves a valid log whose repair is exactly the remaining records. |
| `Journal.RepairCloses` | internal/adapter/session/jsonl/jsonl.go:393-431 | A repaired log passes the closed check, and repairing it again appends nothing. |
| `Journal.RepairSurvivesCrash` | internal/adapter/session/jsonl/jsonl.go:393-431 | A crash after any repair record is repaired to the very log the uninterrupted repair gives. |
| `Journal.NothingToRepair` | internal/adapter/session/jsonl/jsonl.go:394-397 | Repair has nothing to append exactly on a closed log. |
| `OpenLaws.RepairIs` | internal/adapter/session/jsonl/jsonl.go:393-431 | Over the indices of any valid log: repair cancels each question without a decision and gives each call without a result the interrupted error, both in the order they were opened and inside the open step, then ends the open compaction, the open step and, as interrupted, the open turn, each if there is one; nothing else. |
| `OpenLaws.ListsAreOpen` | internal/adapter/session/jsonl/order.go:84-142 | The validator lists exactly the questions without a later decision and the calls without a later result, each once, in the order they were made. |
| `Forks.FindCompletedTurns` | internal/app/subagent/service.go:473-480 | The backward scan returns the prefix up to and including the last turn end, or nothing. |
| `Forks.CompletedTurnsIsLast` | internal/app/subagent/service.go:473-480 | That prefix contains every turn end of the log and ends with one. |
| `Forks.CompletedTurnsIsSeed` | internal/app/subagent/service.go:473-480 | The completed turns of every valid log are a valid closed log. |
| `Forks.ValidateSeed` | internal/adapter/session/jsonl/jsonl.go:476-484 | A seed is accepted exactly when it is a valid closed log. |
| `Forks.CreateChild` | internal/app/agent/registry.go:161-181 | On every accepted seed the opening appends of a child (descriptor naming the seed's length, delegated sandbox mode if asked for, delegated policy, in that order) all succeed, leave the validator state as the seed left it, and make the seed's length the inherited count. |
| `Forks.DescriptorPosition` | internal/adapter/session/jsonl/order.go:224-228 | In a valid log every descriptor names its own position as the inherited count. |
| `Forks.OwnsWhatItWrote` | internal/core/session/subagent.go:16-23 | Until another descriptor, a child owns exactly what it wrote from its descriptor on, whatever its seed holds, descriptors of ancestors included. |
| `Forks.ForkOwnsItsOpening` | internal/app/agent/registry.go:161-181 | A fork of any valid parent log opens on a valid closed log and owns exactly its opening records. |
| `Notices.NoticeID` | internal/core/session/notice.go:18-26 | The ID is the decimal number one above the count of notices queued so far. |
| `Notices.ItoaDenotes` | internal/core/session/notice.go:18-26 | The decimal text of a number consists of digits without a leading zero, and reading it gives the number back. |
| `Notices.NoticeNameInjective` | internal/core/session/notice.go:18-26 | Different numbers give different notice IDs. |
| `Notices.NextNoticeAccepted` | internal/core/session/notice.go:18-26 | In every valid log whose notices were numbered so, the next ID is new and queuing a notice under it is accepted, inherited prefixes included. |
| `Notices.PendingNotices` | internal/core/session/notice.go:31-48 | The nested loops return the queued notices not delivered since, each delivery striking the first listed notice with its ID. |
| `Notices.PendingIsOwed` | internal/core/session/notice.go:31-48 | The pending notices of any suffix of a valid log have distinct IDs and are owed by the validator with the same messages; without an inherited prefix they are all it owes. |
| `OpenLaws.PendingInOrder` | internal/core/session/notice.go:31-48 | The notices a session's own records leave pending are exactly those they queued and did not deliver since, each once, in the order they were queued. |
| `Notices.DeliveredOnce` | internal/adapter/session/jsonl/order.go:52-69 | No notice is delivered twice in a valid log. |
| `Notices.DeliveryWasQueued` | internal/adapter/session/jsonl/order.go:52-69 | Every delivery repeats, word for word, a notice queued earlier in the log. |
| `NodeFacts.NodesAreEvents` | internal/core/session/surface.go:10-41 | The visible nodes of every valid log carry distinct sequence numbers of events of that log; `SurfaceLaws.SurfaceIs` says which. |
| `SurfaceLaws.SurfaceIs` | internal/core/session/surface.go:10-41 | Over the indices of every valid log: each user or assistant message, call, result and summary has exactly one node, under its own number and with its own content, in log order apart from summaries, until a later summary lists that number; a result shows its recorded output until a prune record names it, and the pruned form from then on. Nothing else is visible. |
| `SurfaceLaws.SummaryPlace` | internal/core/session/surface.go:43-72 | A summary stands where the first node it replaces stood, between the nodes kept before it and those kept after it. |
| `SurfaceLaws.DisplayedExactly` | internal/core/session/surface.go:10-72 | The replay pass refuses a summary exactly when nothing it lists is visible, and a prune exactly unless it gives the pruned form of a visible, oversized, not yet pruned result; it refuses no other record. |
| `NodeFacts.PruneKeepsEnds` | internal/core/session/prune.go:36-53 | Exactly the texts of more than 8192 characters are pruned, and what is left are the first 4096 and the last 1024 characters around the marker. |
| `NodeFacts.PrunedIsSmall` | internal/core/session/prune.go:36-53 | Pruning shortens an oversized result, and a pruned result is never pruned again. |
| `NodeFacts.PruneReplaces` | internal/core/session/prune.go:58-73 | A prune record naming a visible oversized result replaces exactly that node. |
| `NodeFacts.SummaryOfPrefix` | internal/core/session/surface.go:43-72 | A summary listing the numbers of a visible prefix, in any order, leaves itself followed by the untouched suffix. |
| `Compaction.SelectPrefix` | internal/app/compaction/service.go:311-332 | The prefix ends at the latest position from which the rest still weighs what is to be retained (half of the transcript when forced to start over), moved back by one so that a call and its adjacent result are never parted; unforced, the rest weighs enough. Any token weight of a node. |
| `Compaction.PruneSurface` | internal/app/compaction/service.go:244-262 | The surface kept in memory is always the one the log folds to; a finished pass has pruned every oversized result, reports whether anything changed, and only a cancelled context or a place where prunes are not allowed stops it. |
| `Compaction.SummaryView` | internal/app/compaction/service.go:175-197 | The summary record of a selected prefix, its numbers sorted, is accepted and turns the transcript into that summary followed by the suffix. |
| `Compaction.Maybe` | internal/app/compaction/service.go:116-215 | For a turn's request and for a manual one, whatever others commit beside it (beside a manual one, a whole turn): its own compaction is left open exactly when a provider panics inside it. Unless others compacted or pruned meanwhile, it reports a change exactly when the earlier transcript was not just added to, and on success the transcript is untouched when neither pressure nor force asks for a change, pruned when that relieves the pressure, and otherwise pruned (unless manual) with the selected prefix, if any, replaced by one newer summary, followed by what a turn added meanwhile. |
| `Compaction.Summarize` | internal/app/compaction/service.go:144-215 | A started transaction ends in the log whatever fails and whoever writes beside it, with the prefix replaced or the transcript only added to; a panic leaves its start open. |
| `Compaction.CloseTransaction` | internal/app/compaction/service.go:205-215 | The end of a party's own compaction is always accepted: whatever others commit, none of them can end it or change the transcript under it. |
| `Plans.ProjectPlan` | internal/core/session/plan.go:27-38 | The loop over a session's own records gives the recorded mode and what the latest request header told the model, as `Plans.ProjectIs` spells out. |
| `Plans.ProjectIs` | internal/core/session/plan.go:17-38 | Over the indices of the own records: the mode is that of the last mode record, a request was made exactly when there is a request header, and the model was told the mode of the last mode record before the last header, the default one without any. |
| `Plans.ToldOtherIs` | internal/core/session/plan.go:27-38 | The told mode differs from a given one exactly when the latest request header was committed while the other mode was the recorded one. |
| `Plans.ModesAgree` | internal/core/session/plan.go:17-38 | A session's own projection and the mode the validator tracks over the whole log agree exactly when the session recorded a mode itself or its inherited prefix ends outside plan mode; always without a prefix. |
| `Plans.InheritedModeRefused` | internal/adapter/session/jsonl/order.go:216-223 | For a fork of any valid parent log: when the inherited completed turns end in plan mode, and only then, the child's own view is outside plan mode while the validator's is not, and the record that would enter plan mode is refused. |
| `Plans.PlanningParent` | internal/app/subagent/service.go:473-480 | There is such a parent: a log whose completed turns are a valid closed seed that ends in plan mode. |
| `PlanModes.Selection.Select` | internal/app/plan/plan.go:146-181 | A successful selection makes the desired mode the one asked for and reports truly whether it was recorded, queued, cancelled or already so; a failed one leaves the desired mode, and whatever it does not record changes only by others' compactions; a pending selection always differs from the recorded mode. |
| `PlanModes.Selection.Step` | internal/app/plan/plan.go:188-224 | A successful step boundary makes the recorded mode equal to the desired one and returns it as the policy in force; unless others compacted meanwhile, a user switch adds its notice to the transcript exactly when the session's own last request header was committed in the other mode, and nothing else changes there. The desired mode never changes at a boundary, also when an append fails. |
| `PlanModes.Selection.Exit` | internal/app/plan/plan.go:245-261 | An accepted exit clears the desired mode without asking for a user-switch notice; it is only accepted while the mode is known active. |
| `PlanModes.BoundaryAccepted` | internal/adapter/session/jsonl/order.go:216-223 | While the session's view agrees with the validator's, the record a boundary or idle selection appends for a pending change is accepted, and makes both agree on the new mode. |
| `Live.ViewStep` | internal/adapter/session/jsonl/order.go:24-251 | What a turn engine sees of a log (place, open questions and calls, transcript, turn marks, plan mode) after an accepted record is a function of what it saw before and the record. |
| `Live.ForeignView` | internal/app/agent/agent.go:460-472 | Whatever other parties commit beside a turn or a manual compaction, they neither open nor end a compaction of this party's own nor change the transcript under it, and beside a turn engine they change nothing but the transcript and the open compaction. |
| `Live.CertainAccepted` | internal/adapter/session/jsonl/order.go:31-250 | The records the engine commits are accepted whenever that view allows them, whatever else the log holds: turn and step marks, headers, chunks, the first assistant message of a step, calls under new IDs, results their calls admit while no question is open, ends, compaction records and mode changes. |
| `Live.DeliverableAccepted` | internal/adapter/session/jsonl/order.go:52-69 | In an open turn every well-formed message that is no goal round and whose notice, if it is one, is owed word for word is accepted between steps. |
| `Live.Session.RunTools` | internal/app/agent/engine.go:362-366 | Whatever a batch of tools and others beside it commit, the calls stay open and, unless others compacted, only the open questions change for the engine; no owed notice is lost; a steady batch returns with every question decided. |
| `Live.Session.Append` | internal/adapter/session/jsonl/jsonl.go:302-335 | An append meets the log as other parties left it, manual compactions included, and changes that view by exactly its own record or not at all; it is accepted whenever the met view allows it, or the message can be delivered. Beside a turn nobody else delivers an owed notice. |
| `Engine.RunTurn` | internal/app/agent/engine.go:95-394 | On any log, beside any other party's records and manual compactions, for every choice of completions, tool results, rejected appends, panics and cancellation points: a turn that did not start leaves no mark, and none starts on an abandoned turn. A turn whose start committed leaves a valid closed log with exactly one turn end, carrying the returned outcome, exactly when no compaction was open in the log its closeout's step end met (if a step was open) and in the one its turn end met; otherwise the turn, and in the first case its step, stays open. Alone on its log it stays open only by a provider panic inside its own compaction. The turn number is the next one; completed and truncated turns end on an assistant message and a step limit on the last allowed step; an error is reported only without a cancellation. And on a closed log where nothing goes wrong, nobody compacts and no compaction is due: the turn starts and ends as its script does (truncated, completed, or at the step limit) without an error, and the transcript gains exactly the opening and its notices, then for each step the context, the answer, its calls, their results, and the input taken at its end (steers after a batch only, notices unless the step is the last). |
| `Engine.Run.CloseOut` | internal/app/agent/engine.go:116-163 | The deferred closeout commits one turn end exactly when no compaction, of whatever party, is open at its step end and at its turn end. A panic settles as an error, an error as cancelled exactly when the turn or a dependency was cancelled by then, and any other outcome is kept; a cancellation is never forgotten. Unless others compacted, the transcript gains exactly an interrupted result for each call still open, in order. |
| `Engine.Run.CloseOpenStep` | internal/app/agent/engine.go:123-144 | Every question and call the step left open is paired, none of these records being refused; the step ends exactly when no compaction is open in the log its end meets. |
| `Engine.Run.Unpaired` | internal/app/agent/engine.go:131-132 | The closeout's scan of the committed log is what the validator holds open, without repeats. |
| `Engine.Run.OpenTurn` | internal/app/agent/engine.go:164-190 | A cancellation before the opening commits nothing; afterwards the turn is open at its first boundary or ends cancelled or failed. No turn opens on an abandoned one. On a closed log where nothing goes wrong, a deliverable opening and deliverable notices always open it, and the transcript gains exactly them. |
| `Engine.Run.Follow` | internal/app/agent/engine.go:306-391 | After the assistant message the run goes on only at a clean step boundary; otherwise it ends truncated, completed, cancelled, failed or panicked. With calls and results the log admits, no panic and no other compaction, the transcript gains exactly the calls, then the results, cancelled or not; uncancelled it gains the input waiting, and the turn goes on exactly unless the answer was cut off, or made no calls and no notice follows. |
| `Engine.Run.RecordCalls` | internal/app/agent/engine.go:320-331 | Named calls with new IDs after an assistant message are all accepted, cancelled or not; the calls made become the pending ones, and the transcript gains exactly them, in order. |
| `Engine.Run.RunBatch` | internal/app/agent/engine.go:362-390 | If the batch returned with no question open, nothing panics and nobody else compacts, results that answer exactly the open calls, in any order, are all accepted and the step ends, cancelled or not. The transcript is the old one, then those results in order and, uncancelled, the steers and (unless the step is the last) the notices; then the turn goes on. |
| `Engine.Run.Complete` | internal/app/agent/engine.go:333-361 | An answer without calls ends its step; then a cancelled turn stops with its notices still waiting, arrived notices join the transcript and the turn goes on, and otherwise the turn completes. The last allowed step takes no notices. |
| `Engine.Run.BeforeStep` | internal/app/agent/engine.go:193-224 | A turn cancelled by then commits nothing and opens no step. A step that opens does so with nothing open, no assistant message, and the selected plan mode recorded; unless others compacted, the transcript was reduced as a compaction request has to, then gained a switch's notice at most, then exactly the context. |
| `Engine.Run.Ask` | internal/app/agent/engine.go:225-305 | Where nothing goes wrong, the answer is committed and is all the transcript gains; nothing opens. An overflow goes on only after its step ended and a forced compaction changed the transcript. |
| `Engine.Run.Steps` | internal/app/agent/engine.go:192-393 | The step loop of an undisturbed turn plays its script to the end: transcript and outcome are the script's, for every number of allowed steps. |
| `Engine.Run.TakeInput` | internal/app/agent/engine.go:400-407 | Deliverable messages that left their queues all join the transcript, in order, and only their notices are spent; the turn fails only over a message that is not deliverable. Only others' compactions can change the transcript otherwise. |
| `Engine.Run.CloseStep` | internal/app/agent/engine.go:334-339 | A step end inside the run is refused exactly while a question, a call or a compaction is open; then the turn fails with its step still open. |
| `Engine.Run.Attempts` | internal/app/agent/engine.go:266-277 | Streaming and retries leave where the turn stands unchanged, whatever was emitted, and everything else too unless others compacted. No retry follows a chunk: an attempt that streamed anything is the last one. Where nothing goes wrong the request succeeds. |
| `Engine.AbandonedForGood` | internal/adapter/session/jsonl/order.go:42-51 | From any log with an open turn on, as long as no turn end is committed, no turn starts, whatever else is committed. |
| `Engine.CompactionInsideStep` | internal/app/agent/agent.go:460-472 | A manual compaction opened inside a step makes the step's end refused, and after it ended the turn's end is refused as well, because the step is still open. |
| `Engine.CompactionInsideTurn` | internal/app/agent/agent.go:460-472 | A manual compaction whose records fall between the steps of a turn makes that turn's end refused, and the abandoned turn keeps every later turn from starting. |
| `GoalFacts.GoalHistory` | internal/core/session/goal.go:129-212 | In every accepted history the rounds and the revisions of each goal count up from one without gap or repeat; the current goal's are as many as its rounds started and its revision; an ID never created has none. |
| `GoalFacts.RoundsNumbered` | internal/core/session/goal.go:132-140 | The i-th admitted round of a goal is round i. |
| `GoalFacts.IdsNeverReused` | internal/core/session/goal.go:157-163 | Two creates in one accepted history never share a goal ID. |
| `GoalFacts.FoldGoals` | internal/adapter/session/jsonl/order.go:36-41 | The validator's goal state is the projection of the whole log. |
| `GoalFacts.ProjectSound` | internal/core/session/goal.go:116-124 | The goal projected from schema-valid records satisfies the schema: non-empty ID and objective, positive revision and cap, a reason exactly while blocked, ordered timestamps. |
| `GoalService.RoundCap` | internal/app/goal/goal.go:634-639 | A number is accepted exactly when it is a whole number between one and the safe-integer limit, and is returned unchanged. |
| `GoalService.BuiltIsAccepted` | internal/app/goal/goal.go:309-444 | Every change an operation builds is schema-valid and accepted by the goal fold (a create under a fresh ID), moves the current revision, and arms only an active goal. |
| `GoalService.SpentForGood` | internal/app/goal/goal.go:652-661 | A revision that stopped being current is refused as missing or stale by every operation in every continuation of the history. |
| `GoalService.OwnGoalAgrees` | internal/adapter/session/jsonl/order.go:36-41 | While a session has a goal of its own, the fold of the whole log, inherited prefix included, stands on the same goal, counters and times. |
| `GoalService.ChangeAcceptedExactly` | internal/app/goal/goal.go:448-483 | The store accepts a built change always, except that a create also needs the inherited goal to be absent or complete and its ID unused there. |
| `GoalService.Service.Mutate` | internal/app/goal/goal.go:448-483 | An accepted mutation moves the goal as its request says: an edit sets exactly the fields given and keeps phase, reason, rounds and creation time; pause, resume, finish and block set their phase (block its reason) and keep objective and cap; a create starts with the request's ID, objective and cap and no rounds; a drop leaves none; the revision moves on by one. It arms a created or resumed goal, keeps an edited one armed, and disarms otherwise. A refusal changes nothing and is one the request and the goal call for, a stopped service, or an unavailable ID. |
| `GoalService.BuiltOrRefused` | internal/app/goal/goal.go:309-446 | A request is refused by its builder exactly when the request and the current goal call for it, and with the one code they call for. |
| `GoalService.BuiltEffect` | internal/app/goal/goal.go:309-446 | The goal after a built change, from the goal before and the request's own fields alone. |
| `GoalService.Service.Commit` | internal/app/goal/goal.go:448-483 | Any record another component commits leaves continuation with the current, active revision. |
| `GoalService.Service.DisarmRevision` | internal/app/goal/goal.go:298-304 | Only continuation of exactly the named revision is removed. |
| `GoalService.Service.Admit` | internal/app/goal/goal.go:498-517 | A round is admitted exactly while its message is the next round within the cap of the current, active, armed revision and no turn since the last create or resume stopped that revision; the turn and its message then commit together and advance the rounds started, always when no turn is open, the turn number is next and the message is well formed and no notice. |
| `GoalService.Service.SettleTurns` | internal/app/goal/goal.go:525-560 | Whatever operations, rounds and records come between the scan, the pause and each disarming, no revision the scan found stopped is armed afterwards. When nothing comes between, the armed revision is disarmed exactly when a turn after the checkpoint and since the last create or resume stopped it, and a cancelled round of it also commits one pause. The last examined sequence is returned. |
| `GoalService.AnyRun` | internal/app/goal/goal.go:142-148 | Under any sequence of operations, rounds, settlements and other records, an armed entry is the current, active revision. |
| `Settlement.Settle` | internal/app/goal/goal.go:587-631 | The one-pass loop computes the event-by-event definition, with the checkpoint given as a sequence number of a log whose own part starts anywhere. |
| `Settlement.RevokedWhen` | internal/app/goal/goal.go:587-631 | For every revision and every sequence of events: the scan revokes it exactly when, after the checkpoint and since the last create or resume, a turn stopped it that was no cancelled round, or a cancelled round that no cancelled round of another revision followed. |
| `Settlement.StopsAtIs` | internal/app/goal/goal.go:587-631 | Over the indices of the events: a turn end stops a revision exactly when its turn ended cancelled, failed or truncated, and the first user message since the latest turn start was a round of that revision, or was no round and the latest goal change had set it. |
| `Settlement.StopIs` | internal/app/goal/goal.go:609-614 | Such an end counts exactly when it lies after the checkpoint and no goal was created or resumed since. |
| `Settlement.StopsRevokeUnless` | internal/app/goal/goal.go:587-631 | So revoked means stopped exactly unless cancelled rounds alone stopped the revision and a cancelled round of another revision came after all of them. |
| `Settlement.RevokedExactly` | internal/app/goal/goal.go:578-631 | In every accepted history the scan revokes the current revision exactly when some turn after the checkpoint and since the last create or resume ended cancelled, failed or truncated and was that revision's round, or was no round and ended while it was current. |
| `Settlement.LaterCheckpoint` | internal/app/goal/goal.go:609-611 | Moving the checkpoint later only shrinks the set of revoked revisions. |
| `Settlement.ResetForgets` | internal/app/goal/goal.go:612-614 | A create or resume after two checkpoints makes their difference irrelevant. |
| `Settlement.SupersededPause` | internal/app/goal/goal.go:615-616 | A concrete history in which a revision that is no longer current was stopped by its cancelled round and is not revoked, because a later revision's cancelled round took its place. |
| `Worker.Agent.constructor` | internal/app/agent/registry.go:194-202 | A created or resumed agent starts with the pending notices of the session's own log in order and no wake. |
| `Worker.Agent.ClaimWake` | internal/app/agent/agent.go:169-180 | A woken agent always holds a notice; the oldest becomes the opening and the rest keep their order. |
| `Worker.Agent.StartTurn` | internal/app/agent/agent.go:127-131 | Starting a turn takes back a wake asked for before and takes nothing from the queue. |
| `Worker.Agent.Drain` | internal/app/agent/agent.go:298-308 | A cancelled turn takes no notices; any other takes the whole queue in order. |
| `Worker.Agent.Deliver` | internal/adapter/session/jsonl/order.go:52-69 | In the open turn the oldest notice taken is accepted by the validator unless it claims to be a goal round, and the notices still held or queued remain those the log owes, in order; a refusal ends the batch and exactly the durable notices still held leave memory, recorded as such. |
| `Worker.Agent.EndTurn` | internal/app/agent/agent.go:127-141 | The turn's own context ends with it, so a notice that arrives before the turn is finished asks for a wake; whether it was interrupted is what held just before. |
| `Worker.Agent.Restore` | internal/app/agent/agent.go:183-187 | The notice a cancelled turn never opened with returns to the head of the queue; the worker cannot finish that turn otherwise. |
| `Worker.Agent.Finish` | internal/app/agent/agent.go:147-163 | A finished turn leaves a wake exactly when notices remain, no request is pending, the agent may open further turns, and the turn was not stopped or a wake was asked for after it was; an agent left idle has no idle waiters. A notice leaves memory here only when the turn it was to open failed to open without being cancelled. |
| `Worker.Agent.Enqueue` | internal/app/agent/agent.go:271-287 | A notice is refused only by a stopped agent or an idle one-shot agent; otherwise it joins the tail and wakes an idle agent, or one whose turn was cancelled or is over, and no other. |
| `Worker.Agent.Notify` | internal/app/agent/agent.go:207-220 | A notice is refused exactly by a stopped agent, for a cancelled caller, or by a one-shot agent that is not busy; an accepted one joins the queue's end, asks for a wake exactly when the agent is idle or its turn was cancelled or is over, and is delivered by that wake, a running turn or a pending request. |
| `Worker.Agent.CommitNotice` | internal/app/agent/agent.go:231-252 | A live agent that can take notices always commits a durable one, under a new ID and otherwise unchanged. |
| `Worker.Agent.Withdraw` | internal/app/agent/agent.go:332-339 | A withdrawn submission gives back its pending slot, asks for no wake, releases the idle waiters exactly when it leaves the agent idle, and changes nothing else; it is the one way a live agent is left idle with a notice queued after its last turn. |
| `Worker.Agent.WhenIdle` | internal/app/agent/agent.go:399-411 | A waiter is registered only while a turn is active, queued or woken. |
| `Worker.Agent.QueueIsPending` | internal/core/session/notice.go:28-48 | Always: the durable notices in hand, in the queue and just committed are, in order, the pending notices of the session's own log except those given up, each of them for a refused delivery, a turn that failed to open, a one-shot agent's end or the worker's stop. |
| `Worker.Agent.NoneLost` | internal/app/agent/agent.go:219-252 | A live agent that may open turns, no delivery refused and no opening failed, has given up none. |
| `Worker.AnyRun` | internal/app/agent/agent.go:80-187 | In every interleaving of claims, requests, turns, deliveries, interrupts, notices, submissions, withdrawals and stops: memory holds, in order, exactly the durable notices the log owes but the given-up ones; a live agent that may open turns gives none up while no delivery is refused and no opening fails; a wake has a notice, an idle agent has no idle waiters, and one holding notices without a wake is one-shot, resumed, last cancelled or interrupted, or follows a withdrawn submission. |
| `Queue.DeliveryAccepted` | internal/adapter/session/jsonl/order.go:52-69 | The validator accepts, in an open turn, every pending notice of the session's own log and every notice without an ID. |
| `Queue.WithoutStrike` | internal/core/session/notice.go:37-46 | Delivering the first notice still held strikes it from the pending list and leaves the others in order, whatever was given up before it. |
| `EditGraph.DistConcat` | internal/adapter/tool/file/diff.go:79-126 | Editing the whole never takes more edits than editing two adjoining parts one after the other. |
| `EditGraph.TwoEditsApart` | internal/adapter/tool/file/diff.go:128-131 | Sequences that differ in their first and in their last line are at least two edits apart, which keeps both parts of a split smaller than the whole. |
| `Frontier.RunEndIsFurthest` | internal/adapter/tool/file/diff.go:153-173 | The end of the run of equal lines from the Myers entry point is the furthest point the pass reaches on its diagonal. |
| `Frontier.Meeting` | internal/adapter/tool/file/diff.go:175-180 | Overlapping forward and reverse entries lie inside both sequences and mark a point of a shortest path, with the edits on each side known. |
| `Frontier.ApartIsLonger` | internal/adapter/tool/file/diff.go:150-183 | Two finished passes that do not overlap prove the distance larger than their sum. |
| `Bisect.DiffWork.Take` | internal/adapter/tool/file/diff.go:19-25 | Units are spent exactly when the context is live and they fit the remaining budget; otherwise nothing is spent. |
| `Bisect.Sweep` | internal/adapter/tool/file/diff.go:152-181 | One side's pass over its diagonals keeps every array access in range and either finds a split of a shortest path or proves the distance larger. |
| `Bisect.BisectLines` | internal/adapter/tool/file/diff.go:132-185 | The frontiers meet by half the sum of the lengths on a point of a shortest path; the split makes progress when the first and the last lines differ; only the work budget or the context ends the search without one. |
| `Changes.ReplaceYields` | internal/adapter/tool/file/diff.go:59-60 | Replacing the changed ranges of the old file by the ranges of the new one yields the new file. |
| `Changes.DistIsLeast` | internal/adapter/tool/file/diff.go:76-78 | No ordered list of disjoint changes between two files is smaller than their edit distance. |
| `Changes.ChangedLines` | internal/adapter/tool/file/diff.go:79-126 | A complete answer is an ordered list of disjoint changes from the old file to the new one with the fewest deleted plus inserted lines; only the work budget or the context leaves it incomplete. |
| `Changes.InnerLines` | internal/adapter/tool/file/diff.go:96-125 | The same of the ranges between the common edges, where without a shared line one replacement is smallest. |
| `Hunks.MergeContexts` | internal/adapter/tool/file/diff.go:202-212 | The merged hunks still turn the old file into the new one, contain every change with its three lines of context and no line further from one, and keep lines of both files between any two of them. |
| `Utf8.EncodeDecodes` | internal/app/job/ring.go:134 | Re-encoding the code point of a well-formed sequence gives the sequence back, and the code point is a Unicode scalar value. |
| `Utf8.DecodeEncodes` | internal/app/job/ring.go:134 | Decoding the encoding of any scalar value gives the value back. |
| `Utf8.UnitIsMaximal` | internal/app/job/ring.go:120-122 | The reference unit is a whole character, the longest beginning of one, or a single byte that begins none. |
| `Utf8.DecodeUTF8` | internal/app/job/ring.go:123-139 | The decoder's loop replaces each maximal subpart of an ill-formed sequence by one replacement character and keeps every well-formed character. |
| `Decoder.DecodedAtSeam` | internal/app/job/ring.go:120-122 | Text cut where the left part could not be completed, or before a byte that starts a character, decodes to the texts of the parts. |
| `Decoder.IncompleteSuffix` | internal/app/job/ring.go:143-154 | What is held back is a sequence later bytes could complete, and nothing is held back exactly when no suffix is one. |
| `Decoder.Output.Write` | internal/app/job/ring.go:97-103 | A write appends decoded text and holds back only a sequence later bytes could complete, keeping the text appended so far that of everything written but the held bytes. |
| `Decoder.Output.Flush` | internal/app/job/ring.go:113-118 | After the flush each channel's appended text is the decoding of all it wrote. |
| `Decoder.WriteAll` | internal/app/job/ring.go:97-154 | For any split of the bytes into writes, the appended texts add up to the decoding of the whole. |
| `Ring.Tape.Append` | internal/app/job/ring.go:27-32 | An append records its bytes at the current end and keeps what is retained contiguous and within the limit, dropping no append boundary that fits. |
| `Ring.Tape.Trim` | internal/app/job/ring.go:36-55 | A trim brings the ring within the limit, only advances the earliest offset, keeps every append boundary that fits, and leaves a fitting ring alone. |
| `Ring.Tape.ReadFrom` | internal/app/job/ring.go:60-68 | From an append boundary a read returns, per channel and in order, every byte ever appended since it that was not dropped, and is lossy exactly when some were. |
| `Ring.SinceSplits` | internal/app/job/ring.go:57-59 | Reads from successive boundaries add up to everything from the first of them on. |
| `Job.Record.Write` | internal/app/job/service.go:173-182 | Output is appended while the job is live, keeping at most 128 KiB and every earlier append that fits, and dropped after settlement. |
| `Job.Record.Read` | internal/app/job/service.go:299-323 | A read returns every retained byte since the previous read and moves past it, is lossy exactly when bytes since then were dropped, delivers the result with the first terminal read only, and releases a foreground reservation; lossless reads add up to everything appended. A settled job's read leaves at most 16 KiB retained, a live one drops nothing. |
| `Job.Record.KeepUnread` | internal/app/job/service.go:204-205 | The trim at settlement drops no byte past the reader's position, and keeps no more than 16 KiB besides what is unread. |
| `Job.Record.Settle` | internal/app/job/service.go:193-226 | The single settlement makes the job terminal with the producer's outcome, and notifies exactly when the producer ended it, it is neither foreground nor awaited and the runtime is live; otherwise every Wait in progress is owed the outcome. |
| `Job.Record.BeginWait` | internal/app/job/service.go:329-348 | A Wait on a settled job returns at once; on a live one it is counted until it ends. |
| `Job.Record.EndWait` | internal/app/job/service.go:349-364 | A Wait the settlement released returns the terminal view, whatever timeout or cancellation raced it; cancellation is reported only while the job is live. |
| `Job.Record.RequestKill` | internal/app/job/service.go:371-387 | A kill stops a live job without a later notice and leaves a settled one unchanged. |
| `Job.Record.TearDown` | internal/app/job/service.go:396-410 | The owner's end or the service's stops a live job without a later notice and leaves a settled one unchanged. |
| `Job.AnyRun` | internal/app/job/service.go:173-387 | In every order of writes, reads, Waits, kills and teardowns around the single settlement: one completion notice is sent exactly when the job was in the background or read while live, neither killed nor torn down, the service was live and the settlement found no Wait; otherwise none, and every Wait it found has returned or still will with the settled job. Reads without a loss add up to what was written. |
| `Spill.FitHead` | internal/app/tool/spill.go:171-182 | The head is the longest prefix whose UTF-16 units fit. |
| `Spill.FitTail` | internal/app/tool/spill.go:183-192 | The tail is the longest suffix whose UTF-16 units fit. |
| `Spill.FitsExactly` | internal/app/tool/spill.go:164-173 | A text's estimate is within a budget exactly when its units are within the limit used for the cut. |
| `Spill.OmittedExactly` | internal/app/tool/spill.go:151-151 | The omitted count is the exact byte length of the text between head and tail. |
| `Spill.Preview` | internal/app/tool/spill.go:143-156 | A preview exists exactly when the worst-case notice fits; its estimate is within the budget, its ends are a disjoint prefix and suffix, each the longest that fits, around an exact notice. |
| `Spill.RetainInline` | internal/app/tool/spill.go:117-130 | Text within the budget passes through; larger text is kept or replaced by such a preview, which is then within the budget. |
| `Spill.RetainTwice` | internal/app/tool/spill.go:112-130 | The policy leaves its own previews unchanged. |
| `Pool.Service.Admit` | internal/app/subagent/service.go:512-524 | The count of reservations and members of the parent's pool decides admission at the limit of eight. |
| `Pool.AtMostEight` | internal/app/subagent/service.go:512-524 | The creations in flight for a pool and its resident children are never more than eight together. |
| `Pool.Service.Reserve` | internal/app/subagent/service.go:498-507 | A creation holds one slot, under its own ticket, exactly when its pool had a free one. |
| `Pool.Service.Unreserve` | internal/app/subagent/service.go:526-537 | The reservation of one ticket is given back, and counters equal the reservations in flight. |
| `Pool.Service.Publish` | internal/app/subagent/service.go:541-556 | A published child takes over its reservation without changing any pool's use; a refused one leaves the reservation with its creation. |
| `Pool.Service.BeginResume` | internal/app/subagent/service.go:895-908 | A placeholder is placed exactly when the service runs, the child is not resident and the pool has a free slot. |
| `Pool.Service.Replace` | internal/app/subagent/service.go:947-960 | A resumed handle takes over its placeholder's slot, or the slot is freed; the placeholder is gone in both cases. |
| `Pool.Service.Remove` | internal/app/subagent/service.go:936-941 | Removing a handle or placeholder frees exactly its own slot. |
| `Pool.Service.Create` | internal/app/subagent/service.go:382-441 | Whatever other creations, resumes and releases do meanwhile, on every exit of a creation nothing of its own is in flight any more, no reservation and no release: its slot is its resident child's or was given back, a failed one leaves no child behind but one another release is closing, and no pool ever uses more than eight slots. With nobody else acting the service is otherwise exactly as before. |
| `Pool.Service.Release` | internal/app/subagent/service.go:676-746 | Closing a handle removes it, or leaves it to the release already closing it; nothing of its own stays in flight. |
| `Pool.Service.Resume` | internal/app/subagent/service.go:880-934 | Whatever happens meanwhile, on every exit of a resume no placeholder of its own is left: the child is resident in its slot or the slot is free again. It begins exactly when the service runs, the child is not resident and the pool has a free slot. |
| `Pool.NothingLeaks` | internal/app/subagent/service.go:526-537 | With no operation in flight no slot is reserved, no placeholder or closing handle is left, and a pool uses exactly its resident children. |

## Left out

- File system, fsync, file locks, JSON and YAML codecs and hashing: an append fails only when a validator rejects the record or a cancelled context stops it first.
- Error texts and error wrapping: a rejection is a refusal, and a failure only remembers whether it wraps a cancellation.
- Providers, tools, OAuth, HTTP and the user interface: arbitrary choices where a turn, a compaction or a job uses them.
- Text normalisation: objectives, block reasons and goal IDs arrive trimmed and within their byte bounds; block codes are only non-empty; labels, image blocks, usage figures and tool metadata other than the tool's name are not modelled.
- Pruning positions: text is a sequence of code points, an invalid byte counting as one, so cut positions are indices rather than byte offsets.
- Compaction thresholds are given integers and node weights are any function; the float ratios and the byte-length estimate are not modelled.
- The size limit on shown hunks and their JSON escaping: hunks too large for the metadata bound are dropped by the program, after the merge that is modelled. The single-block diff of whole-file writes is not modelled.
- The goal round driver, watchers, authority checks and prompts; of the goal service one session is modelled.
- Steering messages to the engine are arbitrary messages; the steer channel itself and subscribers are not modelled.
- Engine.RunTurn: the transcript of a whole undisturbed turn is stated for an opening that is no goal round, for durable notices queued before the turn began, and for a model whose window is unknown, so that no compaction is due; each step's own contract covers notices queued meanwhile and compactions.
- Engine.Run.Attempts: which attempts fail, and how many chunks an attempt streams, are arbitrary; what a chunk holds is not modelled.
- Other parties: beside a turn they commit notices, goal changes, policy and sandbox records and whole manual compactions, and a batch of tools also questions, decisions, todo lists, searches and catalog entries. All compactions of one turn share one ID; they follow one another, and no other party uses it.
- Compaction.Maybe: what is said of the transcript holds unless another compaction or prune came in between; the closing of its own transaction holds regardless.
- Idle facts of a worker are stated for a live worker; stopping resets the counters and drops everything in memory, which the log still owes.
- Deliveries: one fails only when the validator refuses it; a notice given up leaves memory only, stays owed in the log and returns when the session resumes.
- Delegation: the depth limit, the route, the content of the catalog record, the agent registry and settlement watchers are not modelled; registry and catalog succeed or fail arbitrarily.
- Job listing, removal, launch limits, notice rendering and output files are not modelled; a kill reason is not part of the view.
- Retry policy: which failures are retried and the jittered delays are arbitrary choices.
