# Verified core of Runvane

Runvane keeps every conversation as a branching forest of chat entries in SQLite and runs three
protocols over it. This project models those protocols, and a few smaller independent parts, in
Dafny, and proves what they keep over every run.

- **Tool fan-in** (`FanIn.dfy` and the files beginning with that name, `RunTool.dfy`, `Thoughts.dfy`,
  `Batches.dfy`). A planner dispatches a batch of tool invocations as a chain of stamped entries. The
  members settle in any order, and the planner has to resume once, at the end of the chain. The model
  is a step system in which every read and every write of a merge, every query of a check, every
  approval, denial, retry, abort and restart is a step of its own, so approvals, denials and retries
  may race with each other and write back stale reads. `RunToolService` is the imperative form; a
  ghost state follows along, is always one that a run comes to, and says which step each method is.
- **Snapshot and live stream** (`Stream.dfy`, `StreamResults.dfy`, `Sse.dfy`). Commits bump a cursor,
  writers note it in a mirror, read back and publish; a connection buffers until its snapshot is out;
  the client gates by the snapshot's watermark. For every interleaving it is proved exactly when the
  client ends with the database's row; it always does if nothing is published that is older than what
  the client has or is about to get. The code does not enforce that, and a run without it is given.
- **Entry forest** (`Forest.dfy`, `Split.dfy`, `Tokens.dfy`, `Repo.dfy`, `SplitExamples.dfy`): appends,
  merges, lineage, default leaf, subtree split and token totals. A row's parent may be of either lane
  and may even be missing, since the message route stores whatever parent it is sent.
- **Branch view** (`View.dfy`, `SideLane.dfy`, `Display.dfy`, `Agreement.dfy`, `Walks.dfy`, `Items.dfy`, `Store.dfy`):
  the client's chosen flags, its walks over them, and their agreement with the server. The client
  also holds optimistic rows, with negative indices, from the sending of a message until its frame.
- **Smaller parts**: the model-switch lease (`LlmSwitch.dfy`), lifecycle scopes and the registry of
  active runs (`Scope.dfy`, `ScopeRuns.dfy`), the tool-host protocol (`ToolHost.dfy`,
  `ToolHostRuns.dfy`, `Transport.dfy`, `Framing.dfy`), and the overlapping chunker (`Chunker.dfy`).

Specifications are functions and predicates on values (a forest is a map from ids to rows); classes
and methods carry the source's own state and loops and are proved against them. SQL tables are maps,
`ORDER BY conversation_index` is the predicate `IsIndexOrder`, and a batch transaction is one step.
Unique ids come from outside as parameters, as do clocks, tool outcomes and model decisions.

`dafny verify dfyconfig.toml` checks the whole project.

## What the model found

- Nothing that is stored says that a check is due, and no boot step looks for one. So a restart
  strands a batch exactly if by then every member is terminal or running and the batch has not been
  continued (`RestartStrandsExactly`): the sweep makes the running ones terminal and asks for no check
  (`RestartStrandsRunning`, `RestartStrands`). The comment at
  `backend/src/tools/run-tool.service.ts:732-738` promises less than that, and what it promises holds:
  an approval or retry that settles after the restart fans in (`LateSettlementContinues`).
- An abort strands a batch in the same way if it meets the last flow or check of the batch
  (`AbortStrands`); `Strands` lists all steps that do, `Rescues` those that take it up again.
- The composer sends a message under the last row it displays, of either lane, and the message route
  does not check the parent. A message sent from below a side entry, such as a re-categorization at
  the leaf, becomes a spine entry under a side entry: the server resolves a branch that the client
  never shows, neither while the message is on its way (`SentFromPath`) nor afterwards
  (`SideParentDiverges`). Client and server agree exactly if no spine entry of the line has a side
  parent (`AgreementAtLeaf`).
- A message sent while the one before it is still optimistic names an id that the server never stores.
  Its lineage is cut off there, and the client, which finds no way up to a root, leaves its view alone
  (`Rooted`, `Synced`).
- A split reads the anchor of the source before its write batch, and setting the anchor takes no
  append lock. If the anchor moves into the subtree in between, the source is left with an anchor that
  lies in the other conversation (`AnchorRace`); a root whose parent is no row has the same effect
  (`AnchorLost`). `SplitAnchors` gives the exact condition.
- Without an anchor the server starts from the first root and the client from the last, so they show
  different branches as soon as there are two roots (`WithoutAnchor`).
- Two writers of one entry can leave a client behind the database for good (`TwoWritersDiverge`),
  exactly if the older of two versions is the last to be published past the gate (`ConvergesExactly`).

## Model

| member | source | states |
|---|---|---|
| `FanInResults.GateOpensExactly` | `backend/src/tools/run-tool.service.ts:774-780` | Over every run of the fan-in, a check passes its batch gate exactly when all members that the stamp announces have been dispatched and every one of them is done, failed or denied. |
| `FanInResults.PlaceAndStampKept` | `backend/src/tools/run-tool.service.ts:897-910` | Over every run, blocking, failing, running, approving with edits, denying, retrying and sweeping leave index, parent, lane and batch stamp of every entry alone, even when a merge writes back a stale read. |
| `FanInResults.AtMostOneUnforced` | `backend/src/tools/run-tool.service.ts:784-794` | Of two continuations of one batch the later one was forced by a retry: over every run, with concurrent settlements, joined scopes, later requests and restarts, at most one continuation is unforced. |
| `FanInResults.AtMostOnePerAnchor` | `backend/src/tools/run-tool.service.ts:788-794` | At every anchor only the first continuation can be unforced; an invocation without a batch is its own anchor. |
| `FanInResults.BoundedByRetries` | `backend/src/tools/run-tool.service.ts:351-387` | A batch never has more continuations than one plus the number of its settled retries. |
| `FanInHistory.ForcedContinues` | `backend/src/tools/run-tool.service.ts:788-825` | A forced check that has passed its gate gets its continuation, one new spine child of the anchor, whatever hangs there already, unless its scope is aborted or the process restarts before it is over. |
| `FanInHistory.RetriesAccounted` | `backend/src/tools/run-tool.service.ts:351-388` | Over every run the settled retries of a batch are as many as the continuations of its forced checks, the forced checks that wait or are at work, and those lost at a closed gate, in an aborted scope or in a restart, taken together. |
| `FanInHistory.RetryAddsOne` | `backend/src/tools/run-tool.service.ts:351-388` | A retry that settles ends, once no check of the batch is left and none was lost since, with one more continuation, a new entry under the batch tail, also if the batch was continued before. |
| `FanInHistory.AskedByRetries` | `backend/src/tools/run-tool.service.ts:387-388` | A batch has as many forced checks asked for as retries that have settled. |
| `FanInHistory.FlowStarted` | `backend/src/tools/run-tool.service.ts:138-146` | Every flow in every state of a run goes back to one request, whose entry it handles, with the stamp that the entry then had; it is forced exactly if that was a retry, and asks to continue as its batch says or, after approval, denial and retry, always. |
| `FanInHistory.WritesWhatWasRead` | `backend/src/db/repositories/chat-entries-base.repo.ts:356-371` | Every write of a flow changes one payload only: the patched fields are new, all others go back to what an earlier step of the flow read; and the state written is one that the request behind the flow may lead to. |
| `FanInHistory.RetryableExactly` | `backend/src/tools/run-tool.service.ts:546-728` | A tool that fails is left retryable exactly if it has been run since the request behind its flow; what was blocked before is not. Nothing is done without having run, and nothing is denied or put up for approval after it has. |
| `FanInHistory.ChecksInOrder` | `backend/src/tools/run-tool.service.ts:752-764` | The checks that wait are always the ones asked for last, in that order. |
| `FanInHistory.SweepsRunning` | `backend/src/tools/run-tool.service.ts:110-136` | A restart makes exactly the running invocations failed and retryable, and leaves their other fields and all other rows alone. |
| `FanInResults.StrandedStepwise` | `backend/src/tools/run-tool.service.ts:740-825` | At every step of every run: after the step a batch is stranded (all members terminal, no continuation, no check outstanding that could create one) exactly if it is one of the steps in `Strands`, or the batch was stranded and the step does not take it up again (`Rescues`). A restart strands a batch exactly if every member is by then terminal or running and none has been continued; a flow that ends without its check, a last write that ends its flow, and a check that is dropped on abort do exactly if all members are then terminal and nothing else is outstanding. |
| `FanInResults.RestartStrandsExactly` | `backend/src/tools/run-tool.service.ts:110-136` | Over every run a restart leaves a batch stranded exactly if, as the table has it by then, every member is terminal or running and nothing continues the batch yet. |
| `FanInResults.StrandedExactly` | `backend/src/tools/run-tool.service.ts:732-795` | Over every run a batch is stranded exactly if some step stranded it and nothing has taken it up again since. |
| `FanInResults.NotStrandedSince` | `backend/src/tools/run-tool.service.ts:732-738` | From any state of a run on, whatever restarts and aborts came before, a batch that is not stranded stays so as long as no step strands it. |
| `FanInResults.LateSettlementContinues` | `backend/src/tools/run-tool.service.ts:732-738` | A member that settles after a restart, an abort or a lost flow still fans in: once its flow has asked for the check, the batch gets its continuation, unless a later step strands it. |
| `FanInResults.NoStrandedBatch` | `backend/src/tools/run-tool.service.ts:740-795` | A batch that wants a continuation, whose members are all terminal and for which no check is outstanding, has a spine child under its tail, unless some step of the run stranded it. |
| `FanInExamples.RestartStrands` | `backend/src/tools/run-tool.service.ts:110-136` | A run in which a restart between the last write of a member and its check strands the batch. |
| `FanInExamples.RestartStrandsRunning` | `backend/src/tools/run-tool.service.ts:110-136` | A run in which a restart while the last member is running strands the batch: the sweep makes that member terminal. |
| `FanInExamples.AbortStrands` | `backend/src/tools/run-tool.service.ts:798-825` | A run in which an abort between the settlement of the last member and its continuation strands the batch. |
| `FanInExamples.QuietRun` | `backend/src/tools/run-tool.service.ts:740-825` | A run that meets every premise of the shape results exists: a batch fails, is checked and is continued once. |
| `FanInResults.OneContinuation` | `backend/src/tools/run-tool.service.ts:773-795` | With no retry, nothing foreign put under the tail and the batch not stranded, the only spine child of the last member is one continuation of that batch. |
| `FanInResults.ShapeIsFixed` | `backend/src/thoughtProcessing/thoughtTypeProviders/plannerProvider.ts:260-286` | Settlement order does not matter: in any two runs with the same dispatch every member has the same parent, lane and stamp in both, and in both the sole spine child of the same last member is a continuation of that batch. |
| `FanInLiveness.InvAlways` | `backend/src/tools/run-tool.service.ts:740-825` | The fan-in invariant (stamps, chains, flows, checks, continuations, counts) holds in every state of every run. |
| `FanInSafety.SafeStep` | `backend/src/tools/run-tool.service.ts:546-728` | Every step keeps rows, stamps, flows, checks and continuations sound. |
| `FanInSafety.GateExact` | `backend/src/db/repositories/chat-entries.repo.ts:311-323` | Counting terminal stamped entries reaches the stamped size exactly when the whole listed batch is terminal. |
| `FanInSafety.TailExact` | `backend/src/db/repositories/chat-entries.repo.ts:331-343` | The stamped entry with the highest index is the last member of the dispatch chain. |
| `FanInSafety.WritesStamp` | `backend/src/tools/run-tool.service.ts:265-285` | Whatever parameters any phase of a flow writes, they parse to the stamp of its entry. |
| `RunTool.RunToolService.constructor` | `backend/src/tools/run-tool.service.ts:89-101` | A service starts with no task, no queued and no running check. |
| `RunTool.RunToolService.AppendOther` | `backend/src/db/repositories/chat-entries-base.repo.ts:91-147` | Any append outside a batch is one step of the fan-in and keeps the service valid. |
| `RunTool.RunToolService.MergeOther` | `backend/src/db/repositories/chat-entries-base.repo.ts:356-371` | Any merge into an entry that is no tool invocation is one step; an unknown entry changes nothing. |
| `RunTool.RunToolService.Begin` | `backend/src/thoughtProcessing/thoughtTypeProviders/plannerProvider.ts:260-266` | A fan-out decision fixes the id and the size of its batch. |
| `RunTool.RunToolService.AppendMember` | `backend/src/thoughtProcessing/thoughtTypeProviders/plannerProvider.ts:268-284` | One member is created at the cursor of the thought, as one step of the fan-in. |
| `RunTool.RunToolService.Dispatch` | `backend/src/thoughtProcessing/thoughtTypeProviders/plannerProvider.ts:266-286` | The dispatch loop creates every member, in request order, as one chain under the thought, before any of them runs, and changes nothing else: each has the tool and the parameters of its call, under the stamp of the batch, and is resolving and not yet allowed. An aborted scope stops it. |
| `RunTool.RunToolService.Abort` | `backend/src/conversations/lifecycle-scope.ts:30-44` | An abort is one step: from then on whoever looks at the scope stops. |
| `RunTool.RunToolService.Drop` | `backend/src/tools/run-tool.service.ts:640-694` | A flow that is aborted or throws ends as one step, without a check. |
| `RunTool.RunToolService.Run` | `backend/src/tools/run-tool.service.ts:138-146` | A dispatched member starts as one step of the fan-in. |
| `RunTool.RunToolService.Approve` | `backend/src/tools/run-tool.service.ts:245-251` | Approval is accepted exactly for an entry that awaits it, and is then one step of the fan-in. |
| `RunTool.RunToolService.Deny` | `backend/src/tools/run-tool.service.ts:419-425` | Denial is accepted exactly for an entry that awaits approval. |
| `RunTool.RunToolService.Retry` | `backend/src/tools/run-tool.service.ts:342-371` | Retry is accepted exactly for an entry that failed while allowed, with its tool not switched off; it forces a continuation. |
| `RunTool.RunToolService.FetchEntry` | `backend/src/db/repositories/chat-entries-base.repo.ts:356-364` | The read half of a payload merge, with the patch that the phase of the flow allows. |
| `RunTool.RunToolService.WriteEntry` | `backend/src/db/repositories/chat-entries.repo.ts:285-300` | The write half: patched fields over what was read earlier; the flow then goes on, settles or ends. |
| `RunTool.RunToolService.MemberResolved` | `backend/src/tools/run-tool.service.ts:740-765` | A settled member queues one check, with its entry, batch, forcing and scope, behind the others, exactly if its follow-up is to continue. |
| `RunTool.RunToolService.NextCheck` | `backend/src/tools/run-tool.service.ts:752-764` | Checks of a conversation run one at a time, in the order in which they were asked for. |
| `RunTool.RunToolService.CountTerminal` | `backend/src/tools/run-tool.service.ts:774-780` | The gate query ends the check exactly if fewer members are terminal than the stamp announces. |
| `RunTool.RunToolService.ResolveTail` | `backend/src/tools/run-tool.service.ts:785` | The check anchors at the stamped entry with the highest index, and at its own entry if there is none. |
| `RunTool.RunToolService.LookForContinuation` | `backend/src/tools/run-tool.service.ts:791-794` | A forced check always goes on to its insert at the same anchor; an unforced one ends exactly if the anchor has a spine child. |
| `RunTool.RunToolService.ContinuePlanner` | `backend/src/tools/run-tool.service.ts:798-825` | Exactly if its scope is live, a check inserts one planner thought, a spine child of the anchor, and nothing else changes; the insert is persisted before the next check starts. |
| `RunTool.RunToolService.OnModuleInit` | `backend/src/tools/run-tool.service.ts:110-136` | The boot sweep is the restart step: nothing in flight survives, and exactly the running tools become failed and retryable. |
| `Thoughts.ThoughtContext.AppendAtCursor` | `backend/src/thoughtProcessing/types.ts:58-65` | An append of either lane lands under the cursor, whatever the cursor is, and becomes the cursor; all other rows stay. |
| `Batches.PayloadKeepsStamp` | `backend/src/tools/run-tool.service.ts:897-910` | Rewritten parameters carry exactly the batch of the run that rewrites them. |
| `Batches.EditKeepsStamp` | `backend/src/tools/run-tool.service.ts:265-282` | User edits cannot forge, move or drop a stamp. |
| `Batches.EditKeepsEdits` | `backend/src/tools/run-tool.service.ts:265-282` | Key by key: what approve-with-edits persists has the values of the user under the keys of the tool, no other such keys, and the stored request, source and stamp. |
| `Batches.EditsReachTool` | `backend/src/tools/run-tool.service.ts:265-269` | Stripped again, the persisted edits are what the user entered, even if the edit box handed back the envelope. |
| `Batches.PayloadRecords` | `backend/src/tools/run-tool.service.ts:897-910` | Key by key: a non-empty request is recorded with its source, a non-empty note as it is, and every other key keeps its value. |
| `Batches.StripUndoesPayload` | `backend/src/tools/toolParamEnvelope.ts:37-45` | Stripping the envelope gives the tool back the parameters that were wrapped. |
| `StreamResults.ConvergesExactly` | `frontend/src/lib/chatSessionStore.ts:120-123` | Over every run, whatever is published in whatever order: once nothing is on its way and no writer is pending, the client has the database row of an entry exactly if the last publish of it that passed the gate since the snapshot was read was of the current version, or none did. |
| `StreamResults.AllConvergeExactly` | `backend/src/conversations/conversations.controller.ts:274-311` | So the client ends with the whole database exactly if that holds of every entry. |
| `StreamResults.Converges` | `backend/src/conversations/conversations.controller.ts:274-311` | If nothing is published that is older than what the client has or is about to get, then once all frames are consumed each client row is the database row unless its writer has yet to publish it, and with no writer pending the client equals the database. |
| `StreamResults.NeverBackwards` | `frontend/src/lib/chatSessionStore.ts:120-123` | Under the same condition no frame takes a row of the client back to an older version or away. |
| `StreamResults.DroppedIsKnown` | `frontend/src/lib/chatSessionStore.ts:120-123` | Under the same condition the gate drops a frame only if the client already has the commit that the frame announces. |
| `StreamResults.OneWriterIsFresh` | `backend/src/sse/sse-helpers.ts:54-63` | If no entry is committed between another writer's read and publish of it, nothing stale is ever published. |
| `StreamResults.MirrorExactly` | `backend/src/db/stream-cursor.service.ts:29-42` | Over every run the mirror is the highest cursor value noted so far, or loaded at a boot. |
| `StreamResults.TwoWritersDiverge` | `backend/src/sse/sse-helpers.ts:54-63` | Without that discipline two writers of one entry can end with everything published and consumed and the client still wrong. |
| `Stream.InvAlways` | `backend/src/db/repositories/chat-entries-base.repo.ts:338-354` | The invariant that ties cursor, mirror, pending writers, frames and client together holds in every state of every run without stale publishes. |
| `Stream.EarlyDropped` | `backend/src/conversations/conversations.controller.ts:278-304` | All frames buffered before the snapshot was read are at or below its watermark, are dropped, and were already in it. |
| `Sse.StreamCursorService.Note` | `backend/src/db/stream-cursor.service.ts:39-42` | The mirror never moves back and ends at or above what was noted. |
| `Sse.StreamConnection.Next` | `backend/src/conversations/conversations.controller.ts:278-284` | A live frame is buffered before the snapshot frame and passed on after it. |
| `Sse.StreamConnection.SendSnapshot` | `backend/src/conversations/conversations.controller.ts:285-304` | The snapshot frame goes first, then everything buffered, in order, then live frames. |
| `Sse.StreamConnection.Deliver` | `backend/src/conversations/conversations.controller.ts:291-304` | Frames reach the client in the order in which they were sent. |
| `Sse.SseHubService.PublishChatEntryUpsert` | `backend/src/sse/sse-hub.service.ts:15-28` | Publishing stamps the mirror's value of that moment and hands the frame on at once. |
| `Sse.StreamClient.Apply` | `frontend/src/lib/chatSessionStore.ts:192-199` | A snapshot replaces rows and watermark; an upsert at or below the watermark changes nothing. |
| `Repo.ChatEntriesRepo.NextIndex` | `backend/src/db/repositories/chat-entries-base.repo.ts:113-120` | The next index is one above every index of the conversation, without a gap. |
| `Repo.ChatEntriesRepo.AppendEntry` | `backend/src/db/repositories/chat-entries-base.repo.ts:91-147` | An append of a new id, under any parent of either lane or one that is missing, adds one row with the next index, keeps every conversation well formed and bumps the cursor in the same step. |
| `Forest.AppendKeeps` | `backend/src/db/repositories/chat-entries-base.repo.ts:91-147` | An append keeps the forest well formed and the lineage of every existing entry, and the new lineage is the parent's, if it is a row, plus the entry. |
| `Repo.ChatEntriesRepo.MergeEntryPayload` | `backend/src/db/repositories/chat-entries-base.repo.ts:356-371` | With nothing in between, a merge leaves the stored payload with each field of the patch in place of its own, for thoughts and texts as for tools, and nothing else changed; an unknown entry is an error that changes nothing. |
| `Repo.ChatEntriesRepo.FetchEntryRow` | `backend/src/db/repositories/chat-entries-base.repo.ts:302-312` | The row of an entry, if it is in the conversation. |
| `Repo.ChatEntriesRepo.MutateEntry` | `backend/src/db/repositories/chat-entries-base.repo.ts:345-354` | One payload is written and the cursor bumped in the same step; an entry that is gone changes no row. |
| `Forest.LineageStable` | `backend/src/db/repositories/chat-entries-base.repo.ts:258-278` | Appends and merges leave the lineage of every existing entry unchanged. |
| `Forest.RunKeepsLineage` | `backend/src/db/repositories/chat-entries-base.repo.ts:91-147` | Over any run of appends and merges the forest stays well formed and no existing lineage changes. |
| `Repo.ChatEntriesRepo.FetchLineageRows` | `backend/src/db/repositories/chat-entries-base.repo.ts:258-278` | The recursive query in index order is the simple parent walk from root to leaf, and empty for an unknown leaf. |
| `Forest.IndexOrderUnique` | `backend/src/db/repositories/chat-entries-base.repo.ts:258-278` | Ordering by index determines its result. |
| `Repo.OrderByIndex` | `backend/src/db/repositories/chat-entries-base.repo.ts:248-256` | Rows come out in index order, each once. |
| `Repo.ChatEntriesRepo.SetDefaultViewLeaf` | `backend/src/db/repositories/chat-entries-base.repo.ts:320-336` | The anchor is set exactly if the entry lies in the conversation. |
| `Repo.ChatEntriesRepo.WalkToLatestLeaf` | `backend/src/db/repositories/chat-entries-base.repo.ts:170-187` | The walk ends at the leaf of the newest spine line below the anchor. |
| `Repo.ChatEntriesRepo.ResolveDefaultViewLeaf` | `backend/src/db/repositories/chat-entries-base.repo.ts:158-168` | The default leaf is below the anchor, else below the first root, else absent. |
| `Forest.NewestLineFacts` | `backend/src/db/repositories/chat-entries-base.repo.ts:170-187` | The newest line ends at an entry without spine children whose lineage is the start's lineage followed by the line. |
| `Repo.ChatEntriesRepo.CountTerminalToolInvocationsInBatch` | `backend/src/db/repositories/chat-entries.repo.ts:311-323` | The count is the number of terminal invocations stamped with the batch. |
| `Repo.ChatEntriesRepo.ResolveBatchTailEntryId` | `backend/src/db/repositories/chat-entries.repo.ts:331-343` | The tail is the stamped invocation with the highest index, if there is one. |
| `Repo.ChatEntriesRepo.HasSpineChildQuery` | `backend/src/db/repositories/chat-entries.repo.ts:346-355` | Whether an entry has a spine child. |
| `Repo.ChatEntriesRepo.SubtreeIds` | `backend/src/db/repositories/chat-entries-base.repo.ts:420-435` | The rounds of the recursive query collect exactly the entries whose lineage passes the root. |
| `Repo.ChatEntriesRepo.PlanSplit` | `backend/src/db/repositories/chat-entries-base.repo.ts:404-436` | What a split reads: the fork parent, the anchor and the subtree in index order; absent exactly for an unknown root. |
| `Repo.ChatEntriesRepo.ApplySplit` | `backend/src/db/repositories/chat-entries-base.repo.ts:438-475` | The write batch leaves two conversations as planned, field by field: rows that stay are untouched, rows that move keep lane, payload and parent but for the root, indices run from 0, and the anchors and the fork link are those of the plan. It bumps the cursor once, keeps every conversation well formed, and keeps all anchors sound exactly if the source anchor lands on a row. |
| `Repo.ChatEntriesRepo.SplitOffSubtree` | `backend/src/db/repositories/chat-entries-base.repo.ts:395-487` | With nothing in between a split keeps every conversation well formed, and its anchors sound unless the anchor lies in the subtree and the parent of the root is no row; an unknown root changes nothing. |
| `Repo.SplitAnchors` | `backend/src/db/repositories/chat-entries-base.repo.ts:404-475` | Both halves are well formed even if payload merges and anchor changes land between the reads and the write batch; the target anchor is always sound, and the source anchor dangles exactly in two cases: it was moved into the subtree after the plan had read it, or it was in the subtree and the root's parent is no row. |
| `SplitExamples.AnchorRace` | `backend/src/db/repositories/chat-entries-base.repo.ts:404-475` | A split whose source anchor dangles because it moved in between. |
| `SplitExamples.AnchorLost` | `backend/src/db/repositories/chat-entries-base.repo.ts:404-475` | A split whose source anchor dangles because the root's parent is no row. |
| `Repo.MoveRows` | `backend/src/db/repositories/chat-entries-base.repo.ts:440-448` | The per-entry updates produce exactly the two halves: rows that stay as they were, moved rows numbered in order with lane, payload and parent of their source rows, the root without its parent. |
| `Split.SplitKeepsForests` | `backend/src/db/repositories/chat-entries-base.repo.ts:395-487` | Splitting partitions a well-formed forest into two: nothing lost or doubled, every row keeps lane, payload and parent except that the root has no parent, and target indices are 0 to n-1 in the old order. |
| `Split.RemainingKeeps` | `backend/src/db/repositories/chat-entries-base.repo.ts:395-448` | Lineages of entries that stay are unchanged. |
| `Split.RenumberedLineage` | `backend/src/db/repositories/chat-entries-base.repo.ts:395-448` | Every moved lineage becomes its suffix from the split root. |
| `Split.MovedLine` | `backend/src/db/repositories/chat-entries-base.repo.ts:170-187` | For every moved entry the newest line in the target is the newest line in the source. |
| `Split.RemainingLine` | `backend/src/db/repositories/chat-entries-base.repo.ts:170-187` | For an entry that stays, and whose newest line does not run into the split root, the newest line is the same after the split. |
| `Repo.SplitConversation` | `backend/src/conversations/conversations.service.ts:110-131` | The new conversation gets exactly the subtree, rows as they were but for the root's parent, points back to where it was split off, and opens on the branch that was viewed, if that moved, else on the newest line below the split root. No other conversation changes, the re-summed totals of both add up to the totals before, and the anchors stay sound with the one exception above. |
| `Tokens.SplitConservesTokens` | `backend/src/db/repositories/chat-entries.repo.ts:404-444` | Prompt, cached and completion totals and the cost are conserved by a split, and the partial flag before is the disjunction of the two after. |
| `Tokens.TotalsMore` | `backend/src/db/repositories/chat-entries.repo.ts:404-444` | One more row adds its prompt, cached and completion tokens, each truncated towards zero, and its cost to the respective total, and nothing if it is no thought. |
| `Tokens.NoTotals` | `backend/src/db/repositories/chat-entries.repo.ts:404-444` | A conversation without rows has no tokens and no cost, and is not partial. |
| `Tokens.PartialExactly` | `backend/src/db/repositories/chat-entries.repo.ts:434-441` | The cost is partial exactly if some thought with prompt or completion tokens has no cost. |
| `Repo.ChatEntriesRepo.RawTokenTotals` | `backend/src/db/repositories/chat-entries.repo.ts:404-444` | The totals do not depend on the order of the rows. |
| `Repo.ChatEntriesRepo.RecomputeTokenTotals` | `backend/src/conversations/conversations.service.ts:133-136` | Stored totals become those of the rows. |
| `Agreement.ClientFollowsServer` | `frontend/src/lib/linkedChatEntry.ts:231-253` | With an anchor that both sides know, the spine of the active path is, whatever was chosen before, the lineage of the leaf that the server resolves, continued by optimistic rows, exactly if the stored lineage of the anchor starts at a root and never leaves the spine. |
| `Agreement.AgreementAtLeaf` | `frontend/src/lib/linkedChatEntry.ts:231-253` | For a rooted spine leaf that is: exactly if no spine entry on the leaf's lineage has a side parent. |
| `Agreement.MessageFollowable` | `backend/src/conversations/conversation-processor.service.ts:466-490` | A message that is appended and becomes the anchor can be followed exactly if it has no parent or one whose own lineage can be followed. |
| `Agreement.ShownUpToSide` | `frontend/src/lib/linkedChatEntry.ts:178-192` | A line that leaves the spine is shown as far as its first side entry. |
| `Agreement.SideParentDiverges` | `backend/src/conversations/conversation-processor.service.ts:466-490` | The disagreement is real: a message sent from below a side entry hangs under it, the server resolves all three entries and the client shows one. |
| `Agreement.OptimisticShown` | `frontend/src/lib/chatSessionState.svelte.ts:67-85` | While a message is on its way its optimistic row is shown at the end of the server's line if it hangs under the last entry of it, and not at all if its parent is not on the line. |
| `Agreement.SentFromPath` | `frontend/src/lib/chatSessionState.svelte.ts:252-259` | Sent from the displayed path, a message is shown while it is on its way exactly if the last displayed row is a spine entry. |
| `Agreement.TailIsOptimistic` | `frontend/src/lib/linkedChatEntry.ts:243-253` | Below the server's leaf the client's line goes on into an optimistic row, or not at all. |
| `Agreement.RekeyKeeps` | `frontend/src/lib/chatSessionStore.ts:234-245` | When the stored message takes the place of its optimistic row, the rows stay what a client can hold, and the stored ones are the server's. |
| `Agreement.UnknownAnchor` | `frontend/src/lib/chatSessionStore.ts:134-138` | With an anchor whose row is not there, because there is none or because the conversation update came before the message, the client shows the newest line of the newest root. |
| `Agreement.WithoutAnchor` | `backend/src/db/repositories/chat-entries-base.repo.ts:158-168` | Without an anchor client and server show the same branch exactly if there are no two stored spine roots. |
| `View.ChosenLineageIsPath` | `frontend/src/lib/linkedChatEntry.ts:113-129` | Choosing the lineage of a leaf that reaches a root makes it the active path as far as it stays on the spine. |
| `View.ChooseOneMore` | `frontend/src/lib/linkedChatEntry.ts:99-111` | Choosing entry by entry, in any order that visits each fork once, is choosing the whole path. |
| `View.ChooseKeepsOne` | `frontend/src/lib/linkedChatEntry.ts:99-111` | Choosing one entry leaves at most one spine sibling chosen at each fork. |
| `View.ChoosePathKeepsOne` | `frontend/src/lib/linkedChatEntry.ts:99-129` | At most one spine sibling stays chosen at each fork. |
| `View.PathIsChain` | `frontend/src/lib/linkedChatEntry.ts:178-192` | The active spine starts at a root, goes from parent to spine child without repetition, and ends where nothing more is chosen. |
| `View.PathExactly` | `frontend/src/lib/linkedChatEntry.ts:178-191` | With at most one chosen sibling at each fork, the active spine is the only path that starts at the chosen root, or without one at the newest root, goes on with a chosen spine child wherever there is one, and ends where there is none. |
| `View.SwitchRoot` | `frontend/src/lib/linkedChatEntry.ts:132-148` | Switching to a root makes its newest line the active path. |
| `View.SwitchBranch` | `frontend/src/lib/linkedChatEntry.ts:132-148` | Switching below an entry of the path keeps the path down to that entry and goes on with the newest line of the start. |
| `SideLane.InterleavedNoDup` | `frontend/src/lib/linkedChatEntry.ts:195-214` | No entry is displayed twice. |
| `SideLane.InterleavedSpine` | `frontend/src/lib/linkedChatEntry.ts:195-214` | Dropping the side entries of the displayed path gives back its spine. |
| `Display.DisplayedExactly` | `frontend/src/lib/linkedChatEntry.ts:195-214` | A side entry is displayed exactly if it is a side child of a spine entry of the path, or the walk from such a child, from each side child to the last of its own side children, meets its parent. |
| `Display.InterleavedDisplays` | `frontend/src/lib/linkedChatEntry.ts:195-214` | What is displayed stands in order: each spine entry, then its side children in index order, each followed by what its walk meets, before the next spine entry. |
| `Display.SideChildrenShown` | `frontend/src/lib/linkedChatEntry.ts:195-214` | Every side child of every spine entry of the path is displayed, behind that entry and before the next. |
| `Walks.ChildEntries` | `frontend/src/lib/linkedChatEntry.ts:158-160` | The spine children of a parent, in index order. |
| `Walks.WalkUp` | `frontend/src/lib/linkedChatEntry.ts:113-121` | The ids from a leaf up to its root; none exactly if a parent on the way is unknown. |
| `Walks.WalkToLatestLeaf` | `frontend/src/lib/linkedChatEntry.ts:243-253` | The walk ends at the leaf of the newest spine line. |
| `Walks.ResolveViewTipFromAnchor` | `frontend/src/lib/linkedChatEntry.ts:231-241` | The tip is below the anchor if it is known, else below the newest root. |
| `Walks.SpineFromChosen` | `frontend/src/lib/linkedChatEntry.ts:178-191` | The path builder follows the first chosen sibling at each fork from the chosen root, else the newest one. |
| `Walks.InterleaveSideLane` | `frontend/src/lib/linkedChatEntry.ts:195-214` | What is displayed, and in which order, is what `Displays` spells out: exactly the side entries that a walk meets, each group between its spine entry and the next. |
| `Walks.PathFromChosen` | `frontend/src/lib/linkedChatEntry.ts:178-214` | The displayed path has no duplicates, its spine part is the active spine, and exactly the side entries that belong there stand between, in order. |
| `Walks.ActivePathTipId` | `frontend/src/lib/linkedChatEntry.ts:216-222` | The tip is the last entry of the active spine. |
| `Items.ItemCollection.constructor` | `frontend/src/utils/observableCollection.ts:108-112` | A collection starts without items. |
| `Items.ItemCollection.Replace` | `frontend/src/utils/observableCollection.ts:121-143` | List and index hold exactly the new values; known ids keep their item, unknown ones get a new item. |
| `Items.ItemCollection.Append` | `frontend/src/utils/observableCollection.ts:145-152` | A new id is added at the end; a known id is refused and nothing changes. |
| `Items.ItemCollection.ReplaceById` | `frontend/src/utils/observableCollection.ts:162-176` | The item keeps its identity and takes the new id and value; an unknown or taken id changes nothing. |
| `Items.ItemCollection.ChooseEntry` | `frontend/src/lib/linkedChatEntry.ts:99-111` | The entry is chosen and its spine siblings are not. |
| `Items.ItemCollection.ChoosePathFromLeaf` | `frontend/src/lib/chatSessionStore.ts:210-225` | Every entry from the leaf to its root is chosen at its fork; exactly a leaf from which there is no way up to a root is refused, and changes nothing. |
| `Items.ItemCollection.ChooseBranchLine` | `frontend/src/lib/linkedChatEntry.ts:132-148` | The newest line from the start is chosen, and the returned id is its leaf. |
| `Store.ChatSessionStore.constructor` | `frontend/src/lib/chatSessionStore.ts:35-37` | A session starts empty, unanchored and with watermark 0. |
| `Store.ChatSessionStore.SyncViewPathFromAnchor` | `frontend/src/lib/chatSessionStore.ts:205-225` | The view follows its anchor and then shows the server's line, continued by the optimistic rows below it. |
| `Store.ChatSessionStore.SetViewAnchor` | `frontend/src/lib/chatSessionStore.ts:103-106` | The anchor moves and the view shows the server's line for it. |
| `Store.ChatSessionStore.Append` | `frontend/src/lib/chatSessionStore.ts:227-232` | A new entry, stored or optimistic, is added under any parent and the view shows the server's line and the optimistic rows below it; a known entry changes nothing. |
| `Store.ChatSessionStore.Rekey` | `frontend/src/lib/chatSessionStore.ts:234-245` | The optimistic row becomes the stored entry under its own id, with or without a parent, and the view shows the server's line; a taken id is an error that changes nothing. |
| `Store.MessageFits` | `backend/src/conversations/conversation-processor.service.ts:479-494` | The frames that follow an optimistic append can all be applied: the conversation update with an anchor that is not there yet, and then the message itself, which takes the place of the optimistic row. |
| `Store.SnapshotShows` | `frontend/src/lib/linkedChatEntry.ts:53-88` | Before its anchor is followed a snapshot shows the lineage of its leaf up to the first side entry, and without a known leaf the newest line of the newest root. |
| `Store.AnchorShown` | `frontend/src/lib/chatSessionStore.ts:174-180` | A view that shows the server's line for a followable anchor shows the anchor itself. |
| `Store.RenamedFlags` | `frontend/src/lib/chatSessionStore.ts:234-245` | When an optimistic row takes another id, the new id is chosen exactly if the old one was, and its spine siblings are then not. |
| `Store.WithoutIs` | `frontend/src/lib/chatSessionStore.ts:153-158` | Dequeuing takes out exactly the waiting messages of the request. |
| `Store.ChatSessionStore.Upsert` | `frontend/src/lib/chatSessionStore.ts:247-256` | The entry holds its new value and the view shows the server's line. |
| `Store.ChatSessionStore.ChooseBranchLine` | `frontend/src/lib/chatSessionStore.ts:108-112` | After a branch switch the active spine is the kept prefix and the newest line, and the returned id is its leaf; an unknown start changes nothing. |
| `Store.ChatSessionStore.ToLinkedEntries` | `frontend/src/lib/linkedChatEntry.ts:53-79` | The snapshot's rows with one branch chosen; refused exactly if the leaf has an unknown parent above it, or there are rows but neither the leaf nor a spine root. |
| `Store.ChatSessionStore.Replace` | `frontend/src/lib/chatSessionStore.ts:93-97` | A snapshot replaces all rows and the view shows the server's line. |
| `Store.ChatSessionStore.ApplySseEvent` | `frontend/src/lib/chatSessionStore.ts:120-203` | Frames at or below the watermark change nothing unless they are snapshots; a throwing event leaves rows, anchor and watermark alone; every other frame changes rows, anchor, watermark and waiting messages as its kind says. An upsert sets the anchor to its entry exactly for a checkpoint summary or a summarize thought; the shown spine then runs through that entry if its line can be followed, wherever the anchor was before. |
| `LlmSwitch.ResolveLlmSwitchState` | `backend/src/tools/llm-switch.ts:35-65` | The backward scans agree with the lease read forwards, entry by entry. |
| `LlmSwitch.LeaseExact` | `backend/src/tools/run-tool.service.ts:798-825` | A lease of k rounds covers exactly the first k continuations after the switch, each later one runs on the recomputed model whatever was passed on, any other scope covers all of them, and a switch without provider or model covers none. |
| `LlmSwitch.TurnsAre` | `backend/src/tools/llm-switch.ts:53-54` | The length of a lease is cut towards zero, and is one round if the switch names none. |
| `LlmSwitch.IgnoredAnywhere` | `backend/src/tools/llm-switch.ts:45-65` | A denied, failed or pending switch, another tool, a thought of the side lane or of another kind, and whatever else is no user message never changes the lease, wherever it stands. |
| `LlmSwitch.UserMessageEnds` | `backend/src/tools/llm-switch.ts:35-43` | A new user message ends every switch. |
| `LlmSwitch.UnswitchedKeepsModel` | `backend/src/tools/run-tool.service.ts:809-816` | With no accepted switch since the last user message every continuation uses the model that the run was given. |
| `LlmSwitch.BranchesIndependent` | `backend/src/tools/run-tool.service.ts:809-816` | The effective model depends only on the rows of the lineage. |
| `Scope.FinishesOnce` | `backend/src/conversations/lifecycle-scope.ts:46-72` | Over every run no scope finishes twice, a scope whose root is done and whose tasks have settled has finished, and a registered scope never has. |
| `Scope.FinishesIdle` | `backend/src/conversations/lifecycle-scope.ts:65-72` | At the moment a scope finishes its root is done and nothing spawned on it is unsettled. |
| `Scope.WaitIsOver` | `backend/src/conversations/conversation-processor.service.ts:196-201` | A steering run goes on only after the run it waited for has left the registry. |
| `ScopeRuns.RegisteredExactly` | `backend/src/conversations/conversation-processor.service.ts:196-230` | Over every run the registered run of a conversation is the one registered last, for exactly as long as it has not finished. |
| `ScopeRuns.AbortedExactly` | `backend/src/conversations/conversation-processor.service.ts:196-237` | Over every run a scope is aborted exactly if its conversation was cancelled or steered while it was registered, and its root is done exactly if it was closed. |
| `ScopeRuns.WaitsForAborted` | `backend/src/conversations/conversation-processor.service.ts:196-201` | A steering request waits for the run that was registered when it came, which is aborted. |
| `ScopeRuns.WaitsExactly` | `backend/src/conversations/conversation-processor.service.ts:196-230` | A steering request waits exactly from when it met an active run until it goes on. |
| `ScopeRuns.TasksExactly` | `backend/src/conversations/lifecycle-scope.ts:46-63` | A scope waits exactly for the tasks that were spawned on it and have not settled since. |
| `Scope.LifecycleScope.constructor` | `backend/src/conversations/lifecycle-scope.ts:19-28` | A new scope has nothing pending and is not finished. |
| `Scope.LifecycleScope.Spawn` | `backend/src/conversations/lifecycle-scope.ts:46-52` | A spawn adds one pending task. |
| `Scope.LifecycleScope.RootDone` | `backend/src/conversations/lifecycle-scope.ts:54-58` | A second call does nothing; the first finishes the scope if nothing is pending. |
| `Scope.LifecycleScope.SettleOne` | `backend/src/conversations/lifecycle-scope.ts:60-63` | The last task to settle finishes a scope whose root is done. |
| `Scope.LifecycleScope.MaybeFinishNow` | `backend/src/conversations/lifecycle-scope.ts:65-72` | onFinished is called exactly when the scope goes from unfinished to finished. |
| `Scope.ConversationProcessor.BeginRun` | `backend/src/conversations/conversation-processor.service.ts:196-230` | A joining run leaves an active one registered; any other run aborts it and waits, or registers at once. |
| `Scope.ConversationProcessor.ResumeRun` | `backend/src/conversations/conversation-processor.service.ts:199-230` | Once its wait is over, a steering run registers its own scope. |
| `Scope.ConversationProcessor.CloseRoot` | `backend/src/conversations/lifecycle-scope.ts:54-58` | Closing the root of a scope finishes and unregisters it if nothing is pending. |
| `Scope.ConversationProcessor.SettleTask` | `backend/src/conversations/lifecycle-scope.ts:60-63` | The last task to settle finishes and unregisters a scope whose root is done. |
| `Scope.ConversationProcessor.CancelProcessing` | `backend/src/conversations/conversation-processor.service.ts:232-237` | Cancelling aborts the registered scope, if there is one. |
| `Scope.ConversationProcessor.IsProcessing` | `backend/src/conversations/conversation-processor.service.ts:438-440` | A conversation that is processing has a scope that has not finished. |
| `Scope.ConversationProcessor.OnFinished` | `backend/src/conversations/conversation-processor.service.ts:202-208` | A finished scope leaves the registry unless another run has taken its place. |
| `ToolHost.SettlesOnce` | `toolhost/src/client/client.ts:61-80` | Over every run each accepted invocation settles at most once, and exactly once after a close. |
| `ToolHost.DrainedIsSettled` | `toolhost/src/client/client.ts:119-130` | Once everything sent has been taken and nothing runs, every accepted invocation has settled with the outcome that the server sent for it. |
| `ToolHost.OneResultPerInvoke` | `toolhost/src/host/server.ts:81-128` | The server sends exactly one result for each invoke that it has taken and finished, also for unknown tools and cancelled runs. |
| `ToolHost.StrayIgnored` | `toolhost/src/client/client.ts:97-149` | Whatever a host sends, only a result or error about an invocation in flight changes anything. |
| `ToolHost.SentIsSent` | `toolhost/src/client/client.ts:61-80` | The messages counted as sent are those that each step puts on the way to the host. |
| `ToolHost.CancelsOnce` | `toolhost/src/client/client.ts:71-75` | Over every run at most one cancel is sent for each accepted invocation, none for any other, and none while it still listens. |
| `ToolHostRuns.CancelsExactly` | `toolhost/src/client/client.ts:71-75` | Over every run a cancel is sent, once, exactly if the signal that the invocation was started with has fired while it was in flight. |
| `ToolHostRuns.RunsExactly` | `toolhost/src/host/server.ts:81-112` | An invocation runs exactly if the server has taken its invoke, for a tool that it has, and the run has not ended since. |
| `ToolHostRuns.ToldExactly` | `toolhost/src/host/server.ts:72-74` | A running invocation has been told to stop exactly if, since its invoke was taken, a cancel of it was taken or the channel was closed. |
| `ToolHostRuns.StaysTold` | `toolhost/src/host/server.ts:72-74` | Once told to stop, an invocation stays told for as long as it runs. |
| `ToolHostRuns.LateCancel` | `toolhost/src/host/server.ts:72-74` | A cancel for an invocation that does not run changes nothing but the channel it comes from. |
| `ToolHostRuns.SettledForReason` | `toolhost/src/client/client.ts:119-168` | Every settlement of every run has the outcome that the run reported, the failure that names the unknown tool, or the failure of a close. |
| `ToolHost.ToolHostClient.Invoke` | `toolhost/src/client/client.ts:61-80` | Refused at once on a closed channel or an aborted signal; else in flight and sent. |
| `ToolHost.ToolHostClient.OnAbort` | `toolhost/src/client/client.ts:71-75` | A cancel is sent exactly while the invocation listens. |
| `ToolHost.ToolHostClient.Handle` | `toolhost/src/client/client.ts:97-149` | A result settles the invocation in flight with its outcome, an error about one as failed with its message; everything else is ignored. |
| `ToolHost.ToolHostClient.OnClose` | `toolhost/src/client/client.ts:151-168` | Everything in flight settles once, as failed; a second close does nothing. |
| `ToolHost.ToolHostServer.Handle` | `toolhost/src/host/server.ts:62-79` | An invoke of a known tool runs, one of an unknown tool is answered as failed; a cancel tells a running invocation to stop and does nothing to another; the catalog and pings are answered at once. |
| `ToolHost.ToolHostServer.Report` | `toolhost/src/host/server.ts:90-92` | Output of a run is passed on at once, unless it is empty or the channel is closed. |
| `ToolHost.ToolHostServer.Finish` | `toolhost/src/host/server.ts:114-128` | The end of a run sends its one result, which a closed channel drops. |
| `ToolHost.ToolHostServer.Shutdown` | `toolhost/src/host/server.ts:130-133` | A closed channel tells every run to stop and forgets it; the run still finishes in its own time. |
| `Transport.LinkedChannels.HarnessSend` | `toolhost/src/transport/inProcess.ts:38-41` | An open pair accepts a message at the end; a closed one drops it. |
| `Transport.LinkedChannels.HostSend` | `toolhost/src/transport/inProcess.ts:56-59` | The same from the side of the host. |
| `Transport.LinkedChannels.Arrive` | `toolhost/src/transport/inProcess.ts:21-28` | The oldest message in transit goes to the handler or the queue; nothing is lost or reordered (`HostArrive` and `HarnessArrive` are this for the two directions). |
| `Transport.LinkedChannels.Register` | `toolhost/src/transport/inProcess.ts:42-45` | A late handler first gets everything that waited for it (`OnHostMessage` and `OnHarnessMessage` are this for the two directions). |
| `Transport.AllDelivered` | `toolhost/src/transport/inProcess.ts:12-73` | Once nothing is in transit a handler has got everything accepted, in order. |
| `Framing.Transmit` | `toolhost/src/transport/ndjson.ts:17-79` | However the encoded stream is cut into chunks and whenever the handler is registered, exactly the messages sent are delivered, in order, past white space around them and past any lines that are no message. |
| `Framing.SoundCodecExists` | `toolhost/src/transport/ndjson.ts:34-62` | There are codecs with the properties that are assumed of the JSON one. |
| `Framing.RoundTrip` | `toolhost/src/transport/ndjson.ts:34-52` | Decoding the encoding of a message list, with white space around messages and blank or unreadable lines between them, gives back the list. |
| `Framing.ReceivedGrows` | `toolhost/src/transport/ndjson.ts:34-52` | More input only adds messages; whatever was delivered stays a prefix. |
| `Framing.LinesJoin` | `toolhost/src/transport/ndjson.ts:34-52` | A text can be read piece by piece: only the unfinished line is carried over. |
| `Framing.StreamChannel.OnData` | `toolhost/src/transport/ndjson.ts:34-50` | After a chunk, delivered or queued are all messages of the input so far, and the buffer is the unfinished line. |
| `Framing.StreamChannel.OnMessage` | `toolhost/src/transport/ndjson.ts:63-66` | Registering a handler delivers everything queued, in order. |
| `Framing.StreamChannel.Send` | `toolhost/src/transport/ndjson.ts:59-62` | One line per message; nothing once either side is closed. |
| `Framing.StreamChannel.Fail` | `toolhost/src/transport/ndjson.ts:27-32` | The close handler hears of the close once. |
| `Framing.StreamChannel.OnClose` | `toolhost/src/transport/ndjson.ts:67-70` | A late close handler hears of the close at once, and once. |
| `Chunker.ChunkText` | `backend/src/knowledge/chunker.ts:14-39` | The chunks are the non-empty trimmed windows, numbered from 0, each at most the chunk size. |
| `Chunker.UnixLinesAt` | `backend/src/knowledge/chunker.ts:18` | A carriage return before a newline is dropped wherever it is. |
| `Chunker.UnixLinesSame` | `backend/src/knowledge/chunker.ts:18` | A text without such pairs is left alone. |
| `Text.TrimSplits` | `backend/src/knowledge/chunker.ts:34` | Trimming takes all white space off both ends and nothing else. |
| `Text.TrimPadded` | `toolhost/src/transport/ndjson.ts:38` | White space around a text that has none of its own comes off, and of white space nothing is left. |
| `Chunker.WindowsCover` | `backend/src/knowledge/chunker.ts:25-37` | The windows cover the text without gaps; each overlaps the one before by exactly the clamped overlap, or by all but its first character if it is no longer than that; ends never move back; and each is cut as `CutAt` says. |
| `Chunker.CutsAdvance` | `backend/src/knowledge/chunker.ts:28-33` | A later window never ends before an earlier one. |
| `Chunker.PieceFits` | `backend/src/knowledge/chunker.ts:31-34` | A newline at the end of a window stretches it by one, and the trimmed piece still fits. |
| `Chunker.Cut` | `backend/src/knowledge/chunker.ts:27-33` | A cut lies after the start and at most one past the window, and then only behind a newline. |
| `Chunker.CutExactly` | `backend/src/knowledge/chunker.ts:27-33` | A window that does not end the text is cut behind the last newline of its back half, exactly if there is one there, and else at its full size. |

## Left out

- FanInResults.NoStrandedBatch: a step in `Strands` leaves a batch without its continuation, because the code keeps no record that a check is due; `StrandedExactly` says exactly when.
- StreamResults.Converges: needs that nothing stale is published, which the code does not enforce; `ConvergesExactly` covers every run, and `OneWriterIsFresh` gives a discipline that suffices.
- Repo.ChatEntriesRepo.ApplySplit: the source anchor may dangle; `SplitAnchors` says exactly when.
- LlmSwitch.LeaseExact: the recomputed base model of a run is a parameter, because the agent and global settings behind it are not part of this model.
- Framing.Transmit: the JSON codec is a pair of functions with the properties in `Sound`, and `SoundCodecExists` shows that there are such pairs.

- Prisma, SQL text, JSON, zod, HTTP routes, logging and SSE transport: tables are maps, a batch transaction is one step, and a payload is the few fields that the modelled code looks at.
- The append lock as a queue: an append is one step, and the index comes from the rows at that step.
- The reuse of an id: new ids are random, so no row has them and no row names them as its parent.
- Creation times: the client's optimistic rows all carry index -1 and are told apart by their creation time; in the model they have distinct negative indices in that order.
- Database errors inside a check or a merge: the model has no failing queries; a flow that ends early for any reason is the step Drop.
- The tool's own run, the planner's prepare, reason and decide steps, permissions and guardrails: they are the choice among the writes that a phase allows.
- A split while a batch of the conversation is in flight.
- The snapshot that a split broadcasts again over a live stream: it carries the mirror's value instead of its own watermark.
- Text deltas, live tool output and ping: the next upsert replaces the former, and nothing waits for the latter.
- Multiple clients of one stream: connections do not affect each other, and the model has one.
- Row versions in the store: the store's events carry rows only; their order is the subject of the stream model.
- removeById of the item collection, and its version counters and listeners.
- Item objects and scope objects as heap objects: items are handles into a table of wrappers and registered scopes are handles into a table of states, so identity is kept but aliasing outside the two classes is not modelled.
- withMessagePostLock and the queue of pending messages: two waiters on one gate can both proceed, so there is no mutual exclusion to prove.
- UTF-8 decoding of the byte stream: framing works on decoded text; characters cut between chunks are the decoder's matter.
- ChunkSize and Overlap options that are not finite numbers.
- Round trips of summarise snapshots, which select by index range rather than by branch.
- Dollar amounts as floating point: costs are reals.
