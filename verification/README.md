# Verified model of the graph engine and the robot layer

This project models the parts of the repository where state and ordering are hard to get
right, in Dafny, and proves properties of every run of them.

- **Superstep engine** (`channels`, `channel_values`, `channel_objects`, `channel_names`,
  `task_order`, `packet_order`, `supersteps`, `superstep_values`, `scheduling`, `engine`,
  `packets`, `deferral`, `breakpoints`). `PregelState` performs a superstep pass by pass over its
  channels, versions and seen versions, as `apply_writes` does; it is proved to do what
  `Supersteps.ApplyWrites` says channel by channel. On that specification rest the results about
  what each channel holds afterwards, the order of tasks, the short search for candidates, packets,
  deferred nodes and breakpoints.
- **Graph compiler** (`state_graph`, `compiled_runs`, `edge_meaning`, `deferred_graphs`). A builder with nodes,
  edges and waiting edges is compiled to channels, triggers and writers. A small machine that
  walks along the edges is the meaning of the graph; the compiled machine runs the same nodes in
  every step of every run, and which these are is told from the history of the run alone.
- **Recovery** (`recovery`). Writes that were put before a crash, and the superstep that
  starts again from them.
- **Delta channels and message reducers** (`delta_channel`, `delta_snapshots`, `saved_order`,
  `messages`, `message_channel`, `message_order`, `add_messages`, `reordering`).
- **Interrupts** (`interrupts`). Replaying a node from the top with the values it was resumed
  with, over whole sessions of invocations.
- **Context window** (`context`, `hard_window`, `summaries`, `compaction`, `conversation`,
  `loop_detection`). Atomic groups, the split into old and recent messages, the hard limit,
  rolling summaries, and what all of this does to a whole conversation.
- **Timed attempts** (`timed_attempts`), as an interleaving of threads that take a lock.
- **Driver and frame cache** (`priority_inbox`, `driver`, `frame_cache`).

`lists` and `texts` hold facts about sequences and strings; `Lists.Picked` says that one list
holds just the elements of another that are to be kept, in their order, and `Lists.Joins` that
lists stand end to end.

Objects of the program whose methods change their fields are classes here; every method is
proved equal to a specification function, and the theorems are about runs of those functions.
Collaborators that cannot be seen are parameters: reducers, the token measure, the trimming
library, the summary model, the graph that the driver calls, picture decoding, and the names
that fresh ids draw. The token measure of a list is the sum over its messages.

## Where the code and its documentation differ

The model follows the code. Each difference is stated as a lemma with an input that shows it,
and together with the exact condition where there is one.

- A failed node that had already written something is treated as done after a restart
  (`Recovery.HalfDoneTakenAsDone`), although the comment on `_reapply_writes_to_succeeded_nodes`
  says it is executed again. It runs again exactly if it had written nothing visible
  (`Recovery.FailedRunsAgain`), and the superstep ends as an undisturbed one from every store
  exactly if no task failed after a visible write with writes to channels still to come
  (`Recovery.RecoveryExactly`).
- A node that was resumed and then wrote nothing has the resume value as its only write. So it is
  not marked as one that wrote nothing, the value is not given back after a crash, and the node
  runs again although it had succeeded (`Recovery.ResumedRunsAgain`; which tasks run again is
  `Recovery.RunsAgainExactly`).
- A command that sends a packet drops the packets that were waiting
  (`Packets.CommandDropsPackets`). A packet is run exactly if a superstep is the next to replace
  the packets, and not a command or new input (`Packets.EachPacketOnce`).
- Packets are applied in the order of their padded numbers, which from eleven digits on is not
  that of the numbers (`PacketOrder.ElevenDigitsFirst`; the exact condition is
  `PacketOrder.NumericExactly`).
- A waiting edge with no sources is accepted. The barrier of an ordinary target is then always
  available and never updated, and the short search for candidates misses the node
  (`CompiledRuns.EmptyJoinIsMissed`); a deferred target is woken by `finish` and found. The
  short search is complete exactly if no ordinary node has such an edge
  (`CompiledRuns.SearchesAgreeExactly`).
- A command that goes to an ordinary node while a deferred node is due makes both run in one step
  (`Deferral.GotoBesideDeferred`). Deferred nodes run alone exactly if no command of the run
  wakes an ordinary node while a deferred one stays due (`Deferral.DeferredRunAlone`, for
  compiled graphs `DeferredGraphs.CompiledRunAlone`); `DeferredGraphs.GotoReached` is a whole run
  in which that happens.
- A `+` in a node name can give two joins the same channel (`ChannelNames.PlusCollides`), and so
  can an empty name (`ChannelNames.EmptyNameCollides`). The edge channels of a graph have strings
  of their own exactly if no two joins into one node have the same sources once all names are cut
  at every `+` (`ChannelNames.EdgeStringsExactly`).
- A batch that holds an Overwrite which is not first replays to something else than it built
  live (`DeltaChannels.OverwriteMustComeFirst`).
- The loop applies the writes of a superstep in the order of the task paths, while a saver hands
  them back in the order in which tasks committed, or in that of their ids. When the second of
  two tasks that append commits first, the rebuilt list is not the live one
  (`SavedOrder.SecondCommitsFirst`, `MessageChannel.MessagesChangePlaces`). With appended writes
  it is exactly if the orders agree in every superstep since the newest snapshot
  (`SavedOrder.AppendsNeedOrder`, and for new messages `MessageOrder.MessagesNeedOrder`).
- The documented bound on the walk over the ancestors holds only once there is a snapshot. There
  is one exactly if the channel was first written no later than the last superstep in which one
  was due; until then the walk goes back to the root (`DeltaSnapshots.SavedOnceWritten`).
- The message reducer of a delta channel is batching-invariant from a list exactly when its
  ids are distinct (`Messages.BatchingExactly`).
- `add_messages` and that reducer hold the same messages, but a message that comes back in the
  batch that removed it keeps its place in one and moves to the end in the other
  (`AddedMessages.ReaddedMoves`). The lists are equal exactly if the order in which the survivors
  first came in is the order in which they last came in (`Reordering.ReducersAgreeExactly`).
- The last resume value stays with the saver. An invocation without a resume value hands it
  out again, so values are consumed once exactly when no such invocation follows one
  (`Interrupts.ConsumedOnceExactly`).
- In the frame cache a put that replaces a frame by a smaller one can leave room that frames
  forgotten earlier would fit in (`FrameCache.ShrinkingLeavesRoom`). The cache is the longest
  recent end that fits exactly if the last put left no room for the newest frame forgotten until
  then (`FrameCache.CacheIsLongestExactly`).
- An event is taken out of the inbox before anything is known about it, and when its thread or
  its input cannot be made, because that function raises, it is lost (`Drivers.SubmittedAndLost`);
  exactly such events are (`Drivers.LostExactly`).

## Model

| member | source | states |
|---|---|---|
| ChannelObjects.LastValueChannel.Update | libs/langgraph/langgraph/channels/last_value.py:56-67 | no write leaves the value, one replaces it, more are refused and change nothing |
| ChannelObjects.EphemeralChannel.Update | libs/langgraph/langgraph/channels/ephemeral_value.py:55-68 | an empty batch clears a value that was set, a guarded channel refuses more than one write, else the last one stays |
| ChannelObjects.LastValueAfterFinishChannel.Update | libs/langgraph/langgraph/channels/last_value.py:122-128 | the last write stays and the channel is no longer finished; without writes nothing changes |
| ChannelObjects.LastValueAfterFinishChannel.Consume | libs/langgraph/langgraph/channels/last_value.py:130-136 | only a finished channel is emptied |
| ChannelObjects.LastValueAfterFinishChannel.Finish | libs/langgraph/langgraph/channels/last_value.py:138-143 | becomes available exactly if it holds a value and was not finished |
| ChannelObjects.NamedBarrierChannel.Update | libs/langgraph/langgraph/channels/named_barrier_value.py:56-67 | adds the expected names; an unexpected one stops the update after the names in front of it |
| ChannelObjects.NamedBarrierChannel.Consume | libs/langgraph/langgraph/channels/named_barrier_value.py:77-82 | a complete barrier starts over, any other is unchanged |
| ChannelObjects.NamedBarrierAfterFinishChannel.Update | libs/langgraph/langgraph/channels/named_barrier_value.py:134-145 | as the plain barrier, leaving the finish flag alone |
| ChannelObjects.NamedBarrierAfterFinishChannel.Consume | libs/langgraph/langgraph/channels/named_barrier_value.py:155-160 | starts over only if complete and finished |
| ChannelObjects.NamedBarrierAfterFinishChannel.Finish | libs/langgraph/langgraph/channels/named_barrier_value.py:162-167 | a complete barrier is told once that the run looks finished |
| ChannelObjects.TopicChannel.Update | libs/langgraph/langgraph/channels/topic.py:77-85 | forgets the old values unless it accumulates, and takes the new ones behind what is left, lists opened one level; it has changed exactly if it took any or forgot any |
| ChannelNames.JoinStringsDistinct | libs/langgraph/langgraph/graph/state.py:1547-1547 | joins of named sources without plus or colon have channel strings of their own |
| ChannelNames.EdgeStringsDistinct | libs/langgraph/langgraph/graph/state.py:1537-1561 | under the same condition no two edge channels of any kind share a string |
| ChannelNames.JoinStringsExactly | libs/langgraph/langgraph/graph/state.py:1547-1547 | two joins, with sources or without, have one string exactly if they have one target and the same pieces, which are what all source names fall into when cut at every plus |
| ChannelNames.EdgeStringsExactly | libs/langgraph/langgraph/graph/state.py:1537-1561 | the edge channels of a graph all have strings of their own exactly if no two joins into one node have the same pieces |
| ChannelNames.PlusCollides | libs/langgraph/langgraph/graph/state.py:1547-1547 | the instance of two names: a join of them and a join of the one name made of both with a plus get one channel |
| ChannelNames.EmptyNameCollides | libs/langgraph/langgraph/graph/state.py:1547-1547 | the instance without sources: such a join shares its channel with the join of an empty name |
| TaskOrder.SortIgnoresOrder | libs/langgraph/langgraph/pregel/_algo.py:253-256 | when keys identify tasks the sorted list depends only on which tasks there are |
| TaskOrder.SortStable | libs/langgraph/langgraph/pregel/_algo.py:253-256 | tasks that share a key keep their order |
| TaskOrder.LaterPartsIgnored | libs/langgraph/langgraph/pregel/_algo.py:253-256 | parts of a path behind the third do not count: such tasks have one key, and so keep the order they came in |
| TaskOrder.PaddedInjective | libs/langgraph/langgraph/pregel/_algo.py:1412-1420 | two numbers padded to ten digits give different strings, beyond ten digits as well |
| TaskOrder.PreparedKeysInjective | libs/langgraph/langgraph/pregel/_algo.py:1001-1005 | prepared tasks with one key are for the same node or for the same packet |
| PacketOrder.PreparedOrder | libs/langgraph/langgraph/pregel/_algo.py:253-256 | the writes of pulled nodes are applied first, by name, then those of packets, by number up to ten digits |
| PacketOrder.NumericExactly | libs/langgraph/langgraph/pregel/_algo.py:1412-1420 | of two numbers the smaller comes first exactly if it is no larger than the other cut to as many digits |
| PacketOrder.ElevenDigitsFirst | libs/langgraph/langgraph/pregel/_algo.py:1412-1420 | the first number of eleven digits comes before the last one of ten |
| Supersteps.ResultAt | libs/langgraph/langgraph/pregel/_algo.py:284-345 | a superstep bumps, updates and replaces each channel independently of the others but for the finish check |
| Supersteps.OrderIrrelevant | libs/langgraph/langgraph/pregel/_algo.py:253-345 | any permutation of tasks whose keys identify them gives the same channels, versions, seen versions, updated set and refusal |
| Supersteps.SeenIs | libs/langgraph/langgraph/pregel/_algo.py:261-269 | after a step a node has seen exactly its tasks' triggers at the versions before it, and everything else as before |
| SuperstepValues.BatchIsWritten | libs/langgraph/langgraph/pregel/_algo.py:294-313 | what a channel is given are just the values written to it, task by task in the order of the keys and write by write |
| SuperstepValues.TopicHolds | libs/langgraph/langgraph/channels/topic.py:77-85 | after a superstep a topic that does not accumulate holds exactly what was written to it in that step, nothing if nothing was; one that does holds this behind what it held |
| SuperstepValues.ValueHolds | libs/langgraph/langgraph/pregel/_algo.py:294-333 | a last-value channel holds the one value written or what it held; an ephemeral one the last value written, or none once a step began |
| SuperstepValues.LateHolds | libs/langgraph/langgraph/channels/last_value.py:122-143 | a channel that waits for finish holds the last value written; else it is emptied by a task that it woke, and it is finished when the run looks finished |
| SuperstepValues.BarrierHolds | libs/langgraph/langgraph/channels/named_barrier_value.py:56-82 | a barrier has seen the names that came, and those before unless a task that they woke has run |
| SuperstepValues.ReducerHolds | libs/langgraph/langgraph/pregel/_algo.py:315-323 | a folding channel holds the fold of the values onto what it held |
| SuperstepValues.RefusedExactly | libs/langgraph/langgraph/pregel/_algo.py:315-323 | a superstep is refused exactly if some channel cannot take the values written to it: too many, an unexpected name, or a fold that refuses |
| Engine.PregelState.ApplyWrites | libs/langgraph/langgraph/pregel/_algo.py:232-345 | the passes in place end in the specified outcome, or refuse exactly when a channel does |
| Engine.PregelState.MarkSeen | libs/langgraph/langgraph/pregel/_algo.py:261-269 | every node has seen its triggers at their versions before the step |
| Engine.PregelState.ConsumeRead | libs/langgraph/langgraph/pregel/_algo.py:284-292 | exactly the channels that some trigger read are consumed, once each |
| Engine.PregelState.GroupByChannel | libs/langgraph/langgraph/pregel/_algo.py:294-313 | each known channel gets its values in task order; control names and unknown channels get none |
| Engine.PregelState.NotifyRest | libs/langgraph/langgraph/pregel/_algo.py:325-333 | available channels without an update learn that a step began, if it is a real step |
| Engine.PregelState.FinishAll | libs/langgraph/langgraph/pregel/_algo.py:335-342 | every channel is told to finish when nothing updated triggers a node |
| Engine.NextVersionOf | libs/langgraph/langgraph/pregel/_algo.py:227-229 | the next version is above every version there is |
| Engine.TriggerToNodes | libs/langgraph/langgraph/pregel/main.py:4190-4196 | maps each trigger to exactly the nodes that listen to it |
| Engine.PregelState.PrepareNextTasks | libs/langgraph/langgraph/pregel/_algo.py:387-513 | one task for each valid packet and one for each ready candidate, each path once |
| Engine.PregelState.PreparePackets | libs/langgraph/langgraph/pregel/_algo.py:441-466 | one task for each packet that is for a known node with something to run, in order and under its number; the others are skipped and keep theirs |
| Engine.PregelState.PreparePulls | libs/langgraph/langgraph/pregel/_algo.py:475-512 | tasks for exactly the candidates with an unseen, available trigger, an input, and something to run |
| Engine.PregelState.Tick | libs/langgraph/langgraph/pregel/_loop.py:592-674 | no step left, nothing due, draining, a breakpoint reached after progress, or else tasks to run, in this order; the tasks are those of the nodes due, holding what they wrote before unless done tasks are run again |
| Engine.PregelState.AfterTick | libs/langgraph/langgraph/pregel/_loop.py:676-722 | applies the writes as specified or is refused exactly when a channel refuses, and stops exactly if a breakpoint behind a task is reached after progress |
| Engine.PregelState.Round | libs/langgraph/langgraph/pregel/main.py:2978-2999 | a round that runs tasks is a superstep of the scheduling model, in which each task wrote what it was given back, or else what its code writes; one whose writes a channel refuses fails, and any other changes nothing |
| Engine.PreparedTasksCommute | libs/langgraph/langgraph/pregel/_algo.py:253-345 | tasks as prepared may finish in any order without changing how the superstep ends |
| Packets.EachPacketOnce | libs/langgraph/langgraph/pregel/_algo.py:441-466 | over every run, what was sent yields its tasks in the step that is next to replace the packets if that is a superstep, and in no other; if it is new input or a command it yields none |
| Packets.PacketsComeFrom | libs/langgraph/langgraph/pregel/main.py:803-808 | the packets that wait at any time were all sent by one earlier move, and none has replaced them since |
| Packets.CommandDropsPackets | libs/langgraph/langgraph/pregel/_loop.py:920-932 | after a command that sends a packet that packet alone is waiting |
| Scheduling.CandidatesAreEnough | libs/langgraph/langgraph/pregel/_algo.py:468-512 | in every reachable state of processes whose triggers start unavailable, looking behind the updated channels finds the same tasks as scanning all nodes |
| Scheduling.RunKeeps | libs/langgraph/langgraph/pregel/_algo.py:1260-1277 | in every reachable state each triggered node listens to an updated channel, and nodes have seen only versions there are |
| Scheduling.SelfFedIsFed | libs/langgraph/langgraph/pregel/_algo.py:635-647 | a node that reads what triggers it, or several channels, always yields a task when triggered |
| Scheduling.ReadyExactly | libs/langgraph/langgraph/pregel/_algo.py:1260-1277 | a node is due exactly if it has something to run and to read, and a trigger holds a value newer than what the node has seen |
| CompiledRuns.EmptyJoinIsMissed | libs/langgraph/langgraph/graph/state.py:915-967 | with a join of no sources into an ordinary node, in any compiled graph whose one input channel, if it has just one, holds a value from the start, the short search misses after the first input a node that the full scan finds |
| CompiledRuns.SearchesAgreeExactly | libs/langgraph/langgraph/pregel/_algo.py:468-512 | for a compiled graph, whose one input channel if it has just one holds a value from the start, both searches find the same tasks in every state of every run exactly if no join into an ordinary node is without sources |
| Deferral.DeferredRunAlone | libs/langgraph/langgraph/pregel/_algo.py:335-342 | in all states of a run the nodes due are all deferred or all ordinary, exactly if no command wakes an ordinary node while a deferred one stays due |
| DeferredGraphs.CompiledPartitioned | libs/langgraph/langgraph/graph/state.py:1431-1561 | in every compiled graph the channels that wake deferred nodes wait for finish and the others do not |
| DeferredGraphs.CompiledRunAlone | libs/langgraph/langgraph/graph/state.py:1431-1561 | so over every run of a compiled graph deferred nodes are due alone exactly if no command wakes an ordinary node while a deferred one stays due |
| DeferredGraphs.GotoReached | libs/langgraph/langgraph/pregel/_io.py:56-78 | in every compiled graph whose entry leads to deferred nodes only, the run of an input, the entry and a goto to an ordinary node ends with both due |
| Deferral.NullKeepsExactly | libs/langgraph/langgraph/pregel/_loop.py:918-932 | one batch of writes of no task keeps the kinds apart exactly if it leaves no deferred node due or wakes no ordinary one |
| Deferral.GotoBesideDeferred | libs/langgraph/langgraph/pregel/_io.py:56-78 | a command that goes to an ordinary node while a deferred one is due makes both run next |
| Breakpoints.ShouldInterrupt | libs/langgraph/langgraph/pregel/_algo.py:155-185 | if some channel has a version that the interrupt has not seen, just the tasks at a breakpoint, in order; else none |
| Breakpoints.StopsOnlyAfterProgress | libs/langgraph/langgraph/pregel/_loop.py:936-942 | in every run, from a resume to the next the loop can stop again exactly when some version has changed since the resume |
| StateGraphs.StateGraph.AddNode | libs/langgraph/langgraph/graph/state.py:791-801 | refuses names that are taken or reserved, else adds just the node |
| StateGraphs.StateGraph.AddEdge | libs/langgraph/langgraph/graph/state.py:915-967 | refuses an edge from the end or to the start, else adds just the edge |
| StateGraphs.StateGraph.AddWaitingEdge | libs/langgraph/langgraph/graph/state.py:915-967 | refuses unknown or reserved sources, else adds just the waiting edge, one without sources too |
| StateGraphs.StateGraph.Compile | libs/langgraph/langgraph/graph/state.py:1164-1388 | accepts exactly the graphs that have an entry and whose edges have known ends, and then yields the processes, writers and channels the graph asks for |
| StateGraphs.CompiledStateGraph.AttachNodes | libs/langgraph/langgraph/graph/state.py:1431-1535 | every node gets a branch channel of the kind its deferral asks for, and listens to it |
| StateGraphs.CompiledStateGraph.AttachEdge | libs/langgraph/langgraph/graph/state.py:1537-1545 | the source writes null to the branch channel of the target, except for the end |
| StateGraphs.CompiledStateGraph.AttachJoin | libs/langgraph/langgraph/graph/state.py:1546-1561 | the target listens to a barrier over the sources and each source writes its name to it |
| EdgeMeaning.RunsAlongEdges | libs/langgraph/langgraph/graph/state.py:1431-1561 | after any run of supersteps, new inputs and idle steps the nodes due are those that the walk along edges and joins has reached |
| EdgeMeaning.Simulates | libs/langgraph/langgraph/pregel/_algo.py:232-345 | one superstep of the compiled machine, or one new input, is one step of the walk |
| EdgeMeaning.MeaningOfEdges | libs/langgraph/langgraph/graph/state.py:1431-1561 | told from what was due before: after a superstep the ordinary nodes reached by an edge or a join, else the deferred ones reached since they were last due; after new input the entry |
| EdgeMeaning.PlainMeaning | libs/langgraph/langgraph/graph/state.py:1537-1561 | without deferred nodes: due next are exactly the nodes that a direct predecessor ran for, and the targets of joins all of whose sources ran since the join last fired |
| EdgeMeaning.ArrivedMeans | libs/langgraph/langgraph/channels/named_barrier_value.py:56-82 | what a barrier has seen are exactly the sources that ran since it was last consumed |
| Recovery.PregelLoop.PutWrites | libs/langgraph/langgraph/pregel/_loop.py:408-450 | the old writes of other tasks stay in order, and of no task those to names of the state; behind them stand the new ones, or the last for each name if all names are special |
| Recovery.PregelLoop.ReapplyWrites | libs/langgraph/langgraph/pregel/_loop.py:724-737 | every known task gets just its own pending writes back, in order, without those to the four names that only signal |
| Recovery.RestoredIs | libs/langgraph/langgraph/pregel/_runner.py:574-613 | what is given back is all a succeeded task wrote, nothing of a paused one, the partial writes of a failed one |
| Recovery.FailedRunsAgain | libs/langgraph/langgraph/pregel/_loop.py:724-737 | a failed task runs again exactly if it wrote nothing visible |
| Recovery.RunsAgainExactly | libs/langgraph/langgraph/pregel/_loop.py:724-737 | after a restart a task runs again exactly if it never committed, was paused, failed with nothing written but signals, or succeeded with something written but nothing but signals |
| Recovery.SucceededStaysDone | libs/langgraph/langgraph/pregel/_runner.py:604-613 | a task that succeeded, with writes of its own or with none, is not run again |
| Recovery.ResumedRunsAgain | libs/langgraph/langgraph/types.py:912-927 | one whose only write is the value it was resumed with runs again although it succeeded |
| Recovery.PausedKeeps | libs/langgraph/langgraph/pregel/_runner.py:584-591 | of a paused task its question and the last resume value are left |
| Recovery.FailedKeeps | libs/langgraph/langgraph/pregel/_runner.py:595-603 | of a failed one that wrote to the state, all it wrote and its error |
| Recovery.RecoveryRefines | libs/langgraph/langgraph/pregel/_loop.py:676-686 | whatever had been committed before a crash, the restarted superstep ends with the same channels, versions, seen versions and updated set if no task had failed after a visible write |
| Recovery.SameForAllExactly | libs/langgraph/langgraph/pregel/_algo.py:253-345 | two lists of tasks that read the same end the superstep alike from every store exactly if every channel gets the same batch from both |
| Recovery.RecoveryExactly | libs/langgraph/langgraph/pregel/_loop.py:676-686 | the restarted superstep ends like the undisturbed one from every store exactly if no task failed after a visible write with writes to channels still to come |
| Recovery.HalfDoneTakenAsDone | libs/langgraph/langgraph/pregel/_runner.py:597-604 | a task that failed between two writes keeps the first, is not run again, and the superstep ends differently |
| DeltaChannels.DeltaChannel.FromCheckpoint | libs/langgraph/langgraph/channels/delta.py:118-137 | a stored value is taken as it is, none starts empty |
| DeltaChannels.DeltaChannel.Update | libs/langgraph/langgraph/channels/delta.py:159-185 | refuses exactly a second Overwrite; otherwise all plain writes of the batch, in order, are folded onto the value of the Overwrite or the current one |
| DeltaChannels.DeltaChannel.ReplayWrites | libs/langgraph/langgraph/channels/delta.py:139-157 | what follows the last Overwrite, in order, is folded onto its value, or everything onto the current one |
| DeltaChannels.ReplayIsLive | libs/langgraph/langgraph/channels/delta.py:118-185 | one replay of all batches equals one update per batch, for any batching-invariant reducer and Overwrites that come first |
| DeltaChannels.OverwriteMustComeFirst | libs/langgraph/langgraph/channels/delta.py:175-182 | the appending reducer is batching-invariant, and yet a batch with an Overwrite replays to its live value exactly when the Overwrite is first |
| DeltaSnapshots.DeltaLedger.Superstep | libs/langgraph/langgraph/pregel/_loop.py:1094-1148 | counts supersteps and those with writes, starts both over when either has reached the cadence, and then saves a snapshot if the channel has a version |
| DeltaSnapshots.History | libs/checkpoint/langgraph/checkpoint/base/__init__.py:617-649 | the walk returns the newest stored value among the ancestors and the writes since it, oldest first |
| DeltaSnapshots.Hydrate | libs/langgraph/langgraph/pregel/_checkpoint.py:136-184 | a channel read back holds the snapshot, or the replay of the history |
| DeltaSnapshots.RunBooked | libs/langgraph/langgraph/pregel/_checkpoint.py:37-60 | after any run fewer than the frequency many writing supersteps are replayed, and fewer than the horizon many ancestors visited if there is a snapshot, all of them if there is none |
| DeltaSnapshots.SavedOnceWritten | libs/langgraph/langgraph/pregel/_checkpoint.py:63-121 | the walk finds a snapshot exactly if the channel was first written no later than the last superstep in which one was due |
| SavedOrder.AppliedIsBatch | libs/langgraph/langgraph/pregel/_algo.py:294-313 | what a superstep of the delta model applies is the batch that the engine gives the channel |
| SavedOrder.ChainRebuildsLive | libs/checkpoint/langgraph/checkpoint/base/__init__.py:617-649 | after any run in which the tasks that wrote the channel come back in path order, the saved chain rebuilds the live value |
| SavedOrder.OneWriter | libs/checkpoint/langgraph/checkpoint/base/__init__.py:617-649 | a superstep in which at most one task wrote the channel comes back in order from any saver |
| SavedOrder.CommittedInOrder | libs/checkpoint/langgraph/checkpoint/base/__init__.py:617-649 | so does one whose tasks committed in the order of their paths |
| SavedOrder.AppendsNeedOrder | libs/checkpoint/langgraph/checkpoint/memory/__init__.py:202-215 | for appended writes the chain rebuilds the live list exactly if, in every superstep since the newest snapshot, the writes come back as the paths order them |
| SavedOrder.SecondCommitsFirst | libs/langgraph/langgraph/pregel/_algo.py:253-313 | two tasks append and the second by path commits first: the rebuilt list has them the other way round |
| DeltaSnapshots.NeverWrittenNeverSaved | libs/langgraph/langgraph/pregel/_checkpoint.py:87-89 | a channel never written has no snapshot after any number of supersteps and the walk reaches the root |
| Messages.MessagesDeltaReducer | libs/langgraph/langgraph/graph/message.py:274-309 | one pass with holes and an id index yields the simple fold, with distinct ids, from a list with distinct ids |
| Messages.ReduceIsFold | libs/langgraph/langgraph/graph/message.py:292-309 | the working list with holes refines removing, replacing and appending on a compact list |
| Messages.UnnamedStay | libs/langgraph/langgraph/graph/message.py:292-309 | messages without an id are neither replaced nor removed: they stay in order and new ones are added behind |
| Messages.BatchingExactly | libs/langgraph/langgraph/graph/message.py:254-255 | two batches in turn equal their concatenation, for all batches, exactly if the ids are distinct |
| MessageChannel.MessagesSurviveRestart | libs/langgraph/langgraph/graph/message.py:247-309 | a thread's message list read back from its saved chain is the one built live, with distinct ids, if the writing tasks of each superstep come back in path order |
| MessageChannel.MessagesChangePlaces | libs/langgraph/langgraph/graph/message.py:247-309 | two tasks each add a message and the second by path commits first: after a restart the messages have changed places |
| MessageOrder.MessagesNeedOrder | libs/langgraph/langgraph/graph/message.py:247-309 | over any run in which tasks add new messages, the list read back is the live one exactly if, in every superstep since the newest snapshot, the messages come back in the order of the task paths |
| AddedMessages.AddMessages | libs/langgraph/langgraph/graph/message.py:172-234 | names what has no id, then merges, clears or refuses |
| AddedMessages.WithIdsDraws | libs/langgraph/langgraph/graph/message.py:202-211 | just the messages without an id draw names, one after the other |
| AddedMessages.RefusedExactly | libs/langgraph/langgraph/graph/message.py:225-228 | a merge fails exactly when some removal names an id that is unknown at that point |
| AddedMessages.ReducersAgree | libs/langgraph/langgraph/graph/message.py:215-309 | both reducers give one list when nothing is cleared, removals are known and no id comes back after its removal |
| AddedMessages.ReducersHoldTheSame | libs/langgraph/langgraph/graph/message.py:215-309 | even then both hold the newest message of every id |
| AddedMessages.ReaddedMoves | libs/langgraph/langgraph/graph/message.py:217-223 | a message brought back keeps its place in one reducer and goes to the end in the other |
| Reordering.ReducersAgreeExactly | libs/langgraph/langgraph/graph/message.py:215-309 | when nothing is cleared and removals are known, both reducers give one list exactly if the survivors first came in and last came in in one order |
| Reordering.ReaddedAtEndAgrees | libs/langgraph/langgraph/graph/message.py:217-223 | a message brought back at the end of the list meets that condition |
| Reordering.ReaddedDisagrees | libs/langgraph/langgraph/graph/message.py:217-223 | one brought back from in front of another does not |
| AddedMessages.ClearedAndReplaced | libs/langgraph/langgraph/graph/message.py:206-213 | a remove-all marker in front of a list makes that list the state |
| Interrupts.Scratchpad.constructor | libs/langgraph/langgraph/pregel/_algo.py:1289-1331 | the fresh value is that of the first resume write of no task, and the answers those of the first one of the task |
| Interrupts.Scratchpad.GetNullResume | libs/langgraph/langgraph/pregel/_algo.py:1320-1331 | consuming takes just the fresh value out of the pending writes, a second time there is none |
| Interrupts.Scratchpad.Interrupt | libs/langgraph/langgraph/types.py:910-934 | answers by position, then the fresh value once, then pauses |
| Interrupts.Invoke | libs/langgraph/langgraph/pregel/_loop.py:408-450 | one invocation: what the node receives, and what is saved for the next one |
| Interrupts.ReplayIsFaithful | libs/langgraph/langgraph/types.py:910-934 | after any series of invocations the node has received exactly the values fed to it, in order, and pauses at the next interrupt or is done |
| Interrupts.ResumesArriveInOrder | libs/langgraph/langgraph/types.py:910-934 | a first run and then k resumes: the node receives just those k values at its first k interrupts |
| Interrupts.ConsumedOnceExactly | libs/langgraph/langgraph/pregel/_algo.py:1289-1331 | each value is received once exactly when no invocation without a resume follows one with it |
| Contexts.AtomicGroups | robot_agent/context.py:221-241 | groups a call with the results that directly follow it |
| Contexts.GroupsJoin | robot_agent/context.py:221-241 | the groups, joined, are the messages |
| Contexts.CutsAreOffsets | robot_agent/context.py:221-241 | a position is between two groups exactly if it parts no call from its results |
| Contexts.SplitOldAndRecent | robot_agent/context.py:244-284 | the system block stays, the old part stands behind it, and what is left is the longest run of whole groups that fits the window, or all from the last human message or the last group on if that does not fit |
| Contexts.SplitExists | robot_agent/context.py:267-277 | every list has such a cut |
| Contexts.OneSplit | robot_agent/context.py:267-277 | and just one |
| HardWindow.TrimLlmInput | robot_agent/context.py:379-458 | refuses for the first of its reasons, in their order; else the prefix, each further system message that fits behind those kept, and then the rest if it fits, the library's answer if that does, or the longest run of whole groups that does |
| HardWindow.FittingStays | robot_agent/context.py:430-433 | a list within the limit that is not refused comes back unchanged, exactly unless the system messages alone fill the limit and more follows, which then counts for nothing |
| HardWindow.TrimmedIsBounded | robot_agent/context.py:379-458 | whatever the library returns or raises, the result is refused up front or within the limit with the prefix intact |
| HardWindow.NewestThatFit | robot_agent/context.py:446-457 | the fallback is the longest run of whole groups at the end that fits |
| HardWindow.FallBackKeepsBlock | robot_agent/context.py:362-376 | the whole system block with the summary is kept, and too big a block is the only reason to refuse |
| HardWindow.InjectedTokens | robot_agent/context.py:155-166 | an injected summary adds its own tokens and nothing else |
| Summaries.ChunksKeepText | robot_agent/context.py:291-303 | the chunks of a long text join to it and none is too long |
| Summaries.BatchesKeepRecords | robot_agent/context.py:287-318 | each message is one record, or numbered chunks all full but the last; every record is in one batch, in order, no batch is too big unless a single record is, and none could take the first record of the next |
| Summaries.RollSummary | robot_agent/context.py:336-359 | the last of a chain of summaries that starts with the one before, each an accepted answer to the one in front and the next batch; none if some answer is not accepted or there is no room |
| Summaries.ParsedIsAccepted | robot_agent/context.py:321-333 | an answer is accepted exactly if it calls no tool, its first line is the marker, and what follows, stripped, is not empty and fits |
| Compaction.PrepareContext | robot_agent/context.py:461-538 | raises for negative reserves; falls back without policy or model; passes on what is within the watermark; else splits off the old part, and archives it if there is one and it could be rolled into a summary, counts the failure if not |
| Compaction.CompactionSettles | robot_agent/context.py:486-538 | a second call right after an archiving one does nothing, given room for a summary, a small system block, and a kept part that fits |
| Compaction.NeverArchivesTwice | robot_agent/context.py:486-538 | whatever the summary and the sizes, with the same measure, policy and reserved tokens the call right after an archiving one raises or updates nothing |
| Conversation.NothingIsLost | robot_agent/context.py:528-537 | over any conversation the stored messages and those handed to the summary model are complementary parts of the history, each in order, and the counter counts the latter |
| Conversation.HandedOverIsRolled | robot_agent/context.py:500-527 | an archived summary is the last of a chain of accepted answers, each to the one before it and the next batch of just the messages handed over, that starts with the summary before |
| Conversation.SummaryIsLatest | robot_agent/context.py:528-537 | over any conversation the stored summary is that of the last call that archived |
| Conversation.CallsAreCounted | robot_agent/context.py:510-537 | and the counters count the calls that archived and those whose summary failed |
| Conversation.QuietFollows | robot_agent/context.py:510-522 | a call that archives nothing, a failed one too, changes no message |
| Conversation.CallsKeepTheirResults | robot_agent/context.py:221-284 | over any conversation a tool result is stored exactly if its call is |
| Conversation.CompactionIsInvisible | robot_agent/metacog/detect.py:18-71 | for any later messages the current turn, the detected loop and the step count are those of the full history |
| LoopDetection.TakeCurrentTurn | robot_agent/metacog/detect.py:18-24 | the messages from the last human one on, none if there is none |
| LoopDetection.DetectLoop | robot_agent/metacog/detect.py:50-66 | a loop exactly if as many decisions as asked for, at the end of the turn, make the same calls with the same arguments in any order; with the length of that run |
| LoopDetection.CountSteps | robot_agent/metacog/detect.py:69-71 | counts the decisions of the current turn, which are its answers that call tools |
| TimedAttempts.TimedAttemptScope.GuardedSend | libs/langgraph/langgraph/pregel/_retry.py:225-235 | adds the writes only while active, and counts as progress only when it should |
| TimedAttempts.TimedAttemptScope.IdleCheck | libs/langgraph/langgraph/pregel/_retry.py:215-223 | the watchdog stops once the scope is closed, and its time is up exactly after that long without progress |
| TimedAttempts.SendSteps | libs/langgraph/langgraph/pregel/_retry.py:225-235 | undisturbed, the steps of a sending thread add what one guarded send adds and leave the lock free |
| TimedAttempts.CloseSteps | libs/langgraph/langgraph/pregel/_retry.py:210-213 | those of the closer close the scope and leave the lock free |
| TimedAttempts.MatchingPolicy | libs/langgraph/langgraph/pregel/_retry.py:802-810 | finds the first policy that applies, none exactly if none does |
| TimedAttempts.NoWriteAfterTimeout | libs/langgraph/langgraph/pregel/_retry.py:482-517 | in every interleaving no write of a timed-out attempt is ever there again |
| TimedAttempts.WritesOfLastAttempt | libs/langgraph/langgraph/pregel/_retry.py:719-838 | at any time all writes come from the latest attempt, and attempts never exceed the most generous policy, or one |
| TimedAttempts.DecidesExactly | libs/langgraph/langgraph/pregel/_retry.py:790-817 | in every interleaving a failed or timed-out attempt is the last exactly if no policy retries on its error or the first that does allows no more attempts than were made; else a new one runs |
| TimedAttempts.EndsExactly | libs/langgraph/langgraph/pregel/_retry.py:743-775 | any other end is final, and a command's writers add their writes to those of the last attempt |
| TimedAttempts.TimedOutIsCleared | libs/langgraph/langgraph/pregel/_retry.py:482-517 | when a timeout is raised the writes of its attempt are gone |
| TimedAttempts.OverIsFinal | libs/langgraph/langgraph/pregel/_retry.py:514-517 | once the retry loop has ended no thread can change the writes |
| PriorityInboxes.PriorityInbox.Put | robot_agent/driver/events.py:60-63 | numbers the event and queues it |
| PriorityInboxes.PriorityInbox.Get | robot_agent/driver/events.py:65-80 | takes the highest priority, the earliest among equals, or says that nothing is there |
| PriorityInboxes.PumpSensor | robot_agent/driver/events.py:86-111 | queues just the wanted observations, in order, under the next numbers, and counts them |
| Drivers.Driver.RunOnce | robot_agent/driver/loop.py:95-146 | one tick: which event is taken, what the graph is called with, what is waiting afterwards |
| Drivers.TickExactly | robot_agent/driver/loop.py:101-114 | a tick treats the best event that is in the inbox, or came in while the idle policy was asked; else the one that policy made up; and no other |
| Drivers.WaitingOnlyResumed | robot_agent/driver/loop.py:117-125 | a thread whose last turn was interrupted is only called with the value of an explicit resume |
| Drivers.EveryEventOnce | robot_agent/driver/loop.py:95-146 | each event of the inbox is queued once, or was treated once in one of the ways the rules allow |
| Drivers.LostExactly | robot_agent/driver/loop.py:114-127 | an event is lost exactly if no thread can be decided on, or none that waits and no input can be made |
| Drivers.SubmittedAndLost | robot_agent/driver/loop.py:101-114 | an event for which no thread can be decided on is, one tick after it was put, in no queue, and no turn was started for it |
| Drivers.OnlyPriorityOvertakes | robot_agent/driver/events.py:49-80 | over any run a later event is treated before an earlier one only with a strictly higher priority |
| Drivers.CountersAreRight | robot_agent/driver/loop.py:129-135 | the turn counter counts completed turns, and waiting are the threads whose last completed turn was interrupted |
| FrameCache.MemoryVisionSource.PutFrame | robot_agent/vision/source.py:46-71 | the errors in their order; else the simple cache, with the byte count the sum and both limits kept |
| FrameCache.MemoryVisionSource.GetFrame | robot_agent/vision/source.py:73-80 | returns the frame and puts it behind all others, which stay in their order, or changes nothing |
| FrameCache.ValidRefIs | robot_agent/vision/source.py:83-89 | a reference is taken exactly if, stripped, it has 1 to 128 characters and no control ones |
| FrameCache.PutKeepsOwn | robot_agent/vision/source.py:63-71 | a put never evicts its own frame and keeps the longest recent run that fits |
| FrameCache.CacheIsRecent | robot_agent/vision/source.py:46-80 | after any calls the cache is within its limits and is the recently used end of all that was put |
| FrameCache.PutLongestExactly | robot_agent/vision/source.py:60-71 | a put leaves the longest recent end that fits exactly if it leaves no room for the newest forgotten frame |
| FrameCache.CacheIsLongestExactly | robot_agent/vision/source.py:46-80 | after any calls the cache is the longest such end exactly if the last put left no such room |
| FrameCache.CacheIsLongest | robot_agent/vision/source.py:66-71 | so it is if no put shrinks a frame |
| FrameCache.ShrinkingLeavesRoom | robot_agent/vision/source.py:60-65 | after a shrinking put it need not be |

## Left out

- Branches, commands and packets as part of a compiled graph: in the scheduling results a node
  may write anything; `EdgeMeaning` is about plain edges, joins and deferred nodes.
- Functional calls from inside a node, subgraphs, checkpoint namespaces and time travel: one
  flat graph.
- Error-handler nodes and `_resume_error_handlers_if_applicable`: they only add tasks to a step.
- UntrackedValue channels, and the first write to an empty binary-operator channel: `Reducer`
  stands for channels that fold a batch onto a value that is there.
- The state of channels after a refused `apply_writes`: the run ends with the error.
- Engine.PregelState.ApplyWrites: channels are values in a map, so two names for one channel
  object are not captured; `ChannelObjects` models the objects themselves.
- Packets.EachPacketOnce: the channel of packets as the engine makes it, which does not accumulate;
  what a packet carries to its node is not read.
- Deferral.DeferredRunAlone: about nodes woken by channels; tasks made from packets run in every
  step, beside deferred nodes too.
- EdgeMeaning.RunsAlongEdges: joins without sources into ordinary nodes are excluded, since the
  search then misses nodes, and so are commands that wake nodes, and nodes that are triggered but
  yield no input.
- CompiledRuns.SearchesAgreeExactly: graphs whose state is one root channel without a value at
  first, in which a node may be triggered before it has input.
- Engine.PregelState.Tick: cached writes, debug output, and error handlers for tasks that failed.
- EdgeMeaning.MeaningOfEdges: `ChannelName` keeps any two joins apart, so it is about graphs whose
  edge channels have strings of their own.
- Recovery.RecoveryExactly: about all stores; from one store a lost write may go unnoticed.
- Recovery.RecoveryRefines: nodes are deterministic, as the source assumes; task ids are names.
- SavedOrder.ChainRebuildsLive: one channel, saved after every superstep; the mode that saves
  only at exit, and input or commands written directly to a delta channel, are not part of this
  model.
- Interrupts.ReplayIsFaithful: one node, deterministic and without retries; resume values
  addressed by interrupt id are not part of this model. The list of answers that a node sends
  is a value, while the program sends one list object again and again.
- Messages: converting raw dictionaries and chunks, and the `format` option.
- Contexts: the measure is additive, while the library rounds each message.
- Environment parsing for `ContextPolicy`, and the text of the prompts.
- TimedAttempts.WritesOfLastAttempt: clocks, sleeping, jitter and the observer; stream and call
  guards, which only drop output.
- Drivers.EveryEventOnce: the hooks for turns and errors, and the resident loop around a tick.
- FrameCache: decoding and scaling of pictures is a parameter.
- Governance and safety thresholds, goal sorting, identity and skill stores, servers and
  databases: nothing there spans more than one branch.
