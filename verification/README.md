# OrkhestraFS planning and compilation: a verified model

OrkhestraFS runs database queries on an FPGA. This project models the middleware that turns a graph of query nodes into
FPGA runs, gives their streams IDs and memory, and emits the tables that configure crossbars, filters and DMA, and
proves what that code is for.

- **Scheduling** (`QueryOperations`, `ConfigCreator`, `Placement`, `QueryNodes`, `SchedulingModel`, `NodeScheduler`,
  `ExternalLinks`, `ScheduleTheorems`, `RepeatedTypes`, `CheckedStreams`, `ModuleLocations`). A greedy recursive
  scheduler partitions the graph into runs whose modules are a key of the bitstream library. The search it uses works on
  a factored library; it is proved complete and optimal for the real one. Links that leave a run are cut into memory
  links or files.
- **Execution** (`IdManager`, `MemoryManager`, `BlockTables`, `BlockStore`, `MemoryPlan`, `StreamSizes`,
  `AcceleratedNodes`, `QueryManager`, `SetupConditions`, `NodeSetup`, `RunSetup`, `BlockRelease`, `RunResults`,
  `ExecutionPlan`, `BlockHistory`, `ExecutionManager`, `ExecutionTheorems`, `SetupTheorems`, `BranchingQuery`). A state
  machine pops the runs, sets them up and clears them away. In every state each of at most six memory blocks is free or
  in exactly one slot; the block that the FPGA is told to read for a consumer is the one that it was told to write for
  the producer, with the record count that it reported. Whether a run can be set up is decided by the plan, and the
  condition is exact.
- **Crossbar and DMA** (`Crossbar`, `CrossbarExtension`, `PowersOfTwo`, `StreamParameters`, `Dma`). The specification of
  one record is extended to the whole configuration space; clash checks, burst arithmetic and register packing.
- **Filter** (`Filter`). Clauses in disjunctive normal form, compiled into masks.
- **Tables** (`Decimals`, `Varchar`, `TypesConverter`, `TableConversion`). Cells to 32-bit words and back.
- **Regions** (`RegionManager`). Lock-based allocation of FPGA slots.

`Options`, `Sequences` and `AccelerationConstants` are shared by all of them.

Assumptions on the query: node names are unique, the two ends of a link agree, no two links join the same nodes, every
output has one file entry and one check flag, and every input has one file entry (`QueryNodes.WellFormed`,
`ExecutionPlan.FilesMatch`). The input handling (`src/dbmstodspi/input_handling/graph_creator.cpp:53-155`) keeps the
names unique, since they are the keys of a map, gives every output file its check flag, and refuses a node that lists
its predecessors without one input file entry for each; the rest it does not check, so that is up to whoever writes the
query. The graph a result speaks of is the one before scheduling; `QueryNodes.Graph` is a ghost snapshot of it.
Exceptions, and accesses outside a vector or through a null pointer, are results: an `Option`, a status or an `Error`;
where the proofs show an exception cannot be thrown, the branch is an assertion.

Properties that fail in general are stated with the exact condition under which they hold, and an input for which they
do not:

- The search over the factored library misses keys when an operation occurs with different parameter counts:
  `Placement.SearchIsComplete`, `Placement.SearchMissesShorterParameters`.
- With several modules of one type in a run, a consumer can be placed before its producer:
  `RepeatedTypes.OrderKeptIffSingle`, `RepeatedTypes.RepeatedTypesBreakOrder`.
- A stream whose results are to be checked can be passed on inside a run, because the scheduler looks at the flag with
  the number of the input instead of the output: `CheckedStreams.FlagIsHonouredIff`,
  `CheckedStreams.CheckedStaysInside`.
- The module location that a node is given goes stale when a later module is inserted in front of its own:
  `ModuleLocations.LocationStaysIff`, `ModuleLocations.LocationGoesStale`.
- The set-up of a run reads through a null pointer or writes past the end of a vector for some queries that are
  accepted and scheduled: `SetupTheorems.AccessFailsIff`, `BranchingQuery.BranchingFails`.
- A failed `fpgaRun` can keep its regions locked: `RegionManager.PRManager.FpgaRun`, `RegionManager.RunWithoutControl`.
- Cells do not always come back: `TypesConverter.CellComesBack`, and for text `Varchar.TextComesBack` and
  `Varchar.NegativeCharacterChangesText`.
- A comment in `CalculateDMAStreamSetupData` says that records cannot have more than 32 chunks; the code does not check
  it, and the output burst count is 0 exactly then: `StreamParameters.OutputCountIsZeroIff`. `ExtendOutputSpecification`
  would divide by that count, so it requires that it is not 0.

`dafny verify dfyconfig.toml` checks everything.

## Model

| member | source | states |
|---|---|---|
| ConfigCreator.ConvertAcceleratorLibraryToModuleLibrary | src/core/core_input/config_creator.cpp:78-112 | the factored library lists, for every operation in the bitstream library and every parameter position, exactly the values that occur there, strictly ascending, and nothing for other operations |
| ConfigCreator.CollectOperation | src/core/core_input/config_creator.cpp:84-100 | one more module extends the value lists of its operation and leaves all others alone |
| ConfigCreator.KeyModulesOccur | src/core/core_input/config_creator.cpp:83-84 | every module of every library key has been looked at |
| Placement.CheckModuleParameterSupport | src/dbmstodspi/query_execution/scheduling/node_scheduler.cpp:323-355 | the backtracking search returns the supported vector with the lexicographically least parameters that can be chosen from the remaining lists, and nothing exactly if there is none |
| Placement.FindPlacement | src/dbmstodspi/query_execution/scheduling/node_scheduler.cpp:287-318 | over all positions from the minimum on, the first at which some listed parameters are supported is taken, with the least of them; nothing is returned exactly if there is none |
| Placement.SearchIsComplete | src/dbmstodspi/query_execution/scheduling/node_scheduler.cpp:273-355 | completeness against the real library: at any position, the factored library offers nothing supported if and only if no parameter vector of the full length is supported there; with uniform parameter counts that is no parameter vector at all |
| Placement.BestPlacementIsLeast | src/dbmstodspi/query_execution/scheduling/node_scheduler.cpp:287-318 | what is found comes no later, and at its position with no larger parameters, than any insertion the real library supports |
| Placement.SupportedIsCandidate | src/dbmstodspi/query_execution/scheduling/node_scheduler.cpp:323-355 | a supported insertion is one the factored library offers, exactly if it has the full number of parameters |
| Placement.SearchMissesShorterParameters | src/core/core_input/config_creator.cpp:85-91 | the uniformity is needed: a library with parameter counts 2 and 1 for one operation in which the search misses a key |
| NodeScheduler.IncludedIffMember | src/dbmstodspi/query_execution/scheduling/node_scheduler.cpp:397-403 | comparing nodes by value is membership, when names are unique |
| NodeScheduler.AvailableIffReady | src/dbmstodspi/query_execution/scheduling/node_scheduler.cpp:406-416 | a node is available exactly if all its predecessors in the original graph are scheduled |
| NodeScheduler.FindNextNodeLocation | src/dbmstodspi/query_execution/scheduling/node_scheduler.cpp:418-428 | the position of the consumer among the outputs; "No node found!" is not reached |
| NodeScheduler.FindMinPosition | src/dbmstodspi/query_execution/scheduling/node_scheduler.cpp:144-188 | reads outside a parameter or check-flag vector exactly if some stream from the run lacks what is looked at and none before it blocks the node; otherwise none if some stream from the run may not stay on the FPGA, and else the least position after the first modules of all producers; "Something went wrong with scheduling!" is not reached |
| SchedulingModel.BlockedIff | src/dbmstodspi/query_execution/scheduling/node_scheduler.cpp:153-205 | which nodes the run is closed to: exactly those that get a stream from a module of the run with a projection at either end, or with the check flag at the position of the input |
| SchedulingModel.AfterProducersIff | src/dbmstodspi/query_execution/scheduling/node_scheduler.cpp:171-186 | which positions are allowed: exactly those with a module of the type of every producer before them |
| NodeScheduler.FindSuitableModuleCombination | src/dbmstodspi/query_execution/scheduling/node_scheduler.cpp:262-319 | a non-empty result exactly if the node can join the run, and then the best placement of its module; it fails exactly for an operation the library does not have, or when it reads outside a vector |
| NodeScheduler.JoinIffPlaced | src/dbmstodspi/query_execution/scheduling/node_scheduler.cpp:262-319 | having a placement means the same as the condition, stated over the original graph, for a node to join a run |
| NodeScheduler.PushReadyNodes | src/dbmstodspi/query_execution/scheduling/node_scheduler.cpp:231-241 | exactly the consumers that became ready are appended, each once |
| NodeScheduler.TakeKeepsInvariant | src/dbmstodspi/query_execution/scheduling/node_scheduler.cpp:226-243 | taking a node that can join keeps: topological order, soundness of the run, pipeline order, streams that may stay on the FPGA, and the frontier of ready nodes |
| NodeScheduler.TryNode | src/dbmstodspi/query_execution/scheduling/node_scheduler.cpp:218-243 | one attempt: the node is taken exactly if it can join, and otherwise nothing changes |
| NodeScheduler.CheckNodeForModuleSet | src/dbmstodspi/query_execution/scheduling/node_scheduler.cpp:209-259 | the recursion ends with a run in which no stream between modules has a projection at either end or is to be checked, and which none of the ready nodes, old or new, can join any more |
| NodeScheduler.RunCloses | src/dbmstodspi/query_execution/scheduling/node_scheduler.cpp:52-66 | closing a run keeps the schedule valid and makes progress |
| NodeScheduler.CoversIffAcyclic | src/dbmstodspi/query_execution/scheduling/node_scheduler.cpp:48-49 | when no node is ready any more, all nodes are scheduled if and only if the graph has no cycle |
| NodeScheduler.FindAcceleratedQueryNodeSets | src/dbmstodspi/query_execution/scheduling/node_scheduler.cpp:31-69 | ends on every graph; the runs are sound, ordered and maximal, no stream between modules in them has a projection or is to be checked, and together they are a topological order without repetition; it covers the graph exactly if that is acyclic; links are cut and recorded as their kind demands; "Failed to schedule!" only if nothing ready can open a run, and no parameters are found only for a node that can be reached and whose type the library does not have; nothing is read outside a vector unless stream parameters or check flags are missing |
| SchedulingModel.InsertionKeepsOrder | src/dbmstodspi/query_execution/scheduling/node_scheduler.cpp:171-186 | with different operation types in the run, inserting a module after its producers keeps every consumer behind its producer, whatever has been inserted before |
| SchedulingModel.PassThroughKeepsOrder | src/dbmstodspi/query_execution/scheduling/node_scheduler.cpp:269-271 | pass-through nodes take no module and move none |
| ExternalLinks.FindPreviousNodeLocation | src/dbmstodspi/query_execution/scheduling/node_scheduler.cpp:430-440 | the input of the consumer that the producer feeds |
| ExternalLinks.CutOutput | src/dbmstodspi/query_execution/scheduling/node_scheduler.cpp:82-110 | one output: the file name, the cleared pointer, the file given to the consumer and the recorded target, each exactly when its kind of link demands it |
| ExternalLinks.CutInputs | src/dbmstodspi/query_execution/scheduling/node_scheduler.cpp:115-120 | pointers to producers survive exactly inside the run |
| ExternalLinks.CutNode | src/dbmstodspi/query_execution/scheduling/node_scheduler.cpp:78-124 | one node: its outputs, its inputs and its recorded links are as its run demands, all other nodes but for the files they are given are untouched |
| ExternalLinks.CheckExternalLinks | src/dbmstodspi/query_execution/scheduling/node_scheduler.cpp:73-125 | the whole run is cut off, and its memory links are recorded |
| ScheduleTheorems.LinkOutcome | src/dbmstodspi/query_execution/scheduling/node_scheduler.cpp:79-120 | every link of the original graph ends in exactly one way: inside a run, as a memory link naming producer, output, consumer and input, or as one file name at both ends with the pointer cleared; and which way is decided by run, file name and reuse policy |
| ScheduleTheorems.MemoryIsReused | src/dbmstodspi/query_execution/scheduling/node_scheduler.cpp:94-97 | with the policy in force, an output that leaves its run is a memory link if it was given no file, and a file otherwise |
| ScheduleTheorems.FileOfOutput | src/dbmstodspi/query_execution/scheduling/node_scheduler.cpp:83-104 | the file of an output is the one it was given, or else made of the node's name and the number of the output where one is needed, or else none |
| ScheduleTheorems.FileOfInput | src/dbmstodspi/query_execution/scheduling/node_scheduler.cpp:105-107 | an input that no scheduled node feeds keeps its file |
| ScheduleTheorems.LinksHaveOwnSlots | src/dbmstodspi/query_execution/scheduling/node_scheduler.cpp:90-97 | different links feed different inputs |
| ExternalLinks.FileNameTellsOutput | src/dbmstodspi/query_execution/scheduling/node_scheduler.cpp:84-86 | an automatic file name determines the node's name and the output |
| ScheduleTheorems.AutomaticFilesDiffer | src/dbmstodspi/query_execution/scheduling/node_scheduler.cpp:84-86 | no two outputs of the query get the same automatic file |
| ScheduleTheorems.PredecessorsStayInRun | src/dbmstodspi/query_execution/scheduling/node_scheduler.cpp:115-120 | predecessors that are still known after cutting are in the same run |
| ScheduleTheorems.ClosedRunCannotGrow | src/dbmstodspi/query_execution/scheduling/node_scheduler.cpp:209-259 | no ready node can be added to a closed run, with any parameters at all, at any position after its producers, as far as the real library goes |
| RepeatedTypes.RepeatedTypesBreakOrder | src/dbmstodspi/query_execution/scheduling/node_scheduler.cpp:144-188 | an input for which the pipeline order breaks: two filters in a row and a join behind them, with bitstreams for one filter, two, and two with a join between them; whatever the search finds, the join's module ends up in front of that of the filter that feeds it |
| RepeatedTypes.ChainIsPlaced | src/dbmstodspi/query_execution/scheduling/node_scheduler.cpp:273-319 | and it does find it: the three placements, each the one best placement |
| RepeatedTypes.OrderKeptIffSingle | src/dbmstodspi/query_execution/scheduling/node_scheduler.cpp:171-186 | the exact condition for one insertion: every position after the first module of the producer's type is behind all of them if and only if there is only one |
| CheckedStreams.FlagIsHonouredIff | src/dbmstodspi/query_execution/scheduling/node_scheduler.cpp:160-169 | for a stream without projections, being passed on inside a run means not being checked if and only if the flags with the numbers of the output and of the input are equal |
| CheckedStreams.CheckedLeaveUnlessRenumbered | src/dbmstodspi/query_execution/scheduling/node_scheduler.cpp:160-169 | in every schedule, an output to be checked leaves its run unless it feeds an input of another number |
| CheckedStreams.CheckedStaysInside | src/dbmstodspi/query_execution/scheduling/node_scheduler.cpp:160-169 | an input for which it does not: a join whose second output is to be checked and feeds the first input of a filter; both in one run is a valid schedule |
| ModuleLocations.LocationStaysIff | src/dbmstodspi/query_execution/scheduling/node_scheduler.cpp:226-229 | the exact condition: the place remembered for a node's module stays right if and only if all later modules of the run are inserted behind it |
| ModuleLocations.ModuleMoves | src/dbmstodspi/query_execution/scheduling/node_scheduler.cpp:287-318 | where a module is after further insertions: that place holds the very module |
| ModuleLocations.LocationGoesStale | src/dbmstodspi/query_execution/scheduling/node_scheduler.cpp:287-318 | an input for which the location goes stale: a sort and a filter, with bitstreams for the sort alone and for the filter before the sort; the filter ends up where the sort is said to be |
| ModuleLocations.BothArePlaced | src/dbmstodspi/query_execution/scheduling/node_scheduler.cpp:287-318 | and both placements are found |
| ScheduleTheorems.HomesOfRunsAgree | src/dbmstodspi/query_execution/scheduling/node_scheduler.cpp:66 | every scheduled node is in one run, and being in the same run is mutual |
| IdManager.SetUpAvailableIDs | src/dbmstodspi/query_execution/scheduling/id_manager.cpp:48-56 | the stack of IDs, 0 on top |
| IdManager.FindStreamIndex | src/dbmstodspi/query_execution/scheduling/id_manager.cpp:103-112 | the first output of the producer that leads to the node |
| IdManager.AllocateInputIDs | src/dbmstodspi/query_execution/scheduling/id_manager.cpp:58-86 | inputs from the run share the ID of the output they take, the others get new ones; outputs take over the IDs of the inputs before them; fails exactly if the inputs from outside need more IDs than are left |
| IdManager.AllocateLeftoverOutputIDs | src/dbmstodspi/query_execution/scheduling/id_manager.cpp:88-101 | outputs beyond the inputs get new IDs; fails exactly if too few are left |
| IdManager.AllocatedAfter | src/dbmstodspi/query_execution/scheduling/id_manager.cpp:36-45 | one more node keeps the streams that enter or leave the run apart |
| IdManager.AllocateStreamIDs | src/dbmstodspi/query_execution/scheduling/id_manager.cpp:30-46 | succeeds exactly if the inputs from outside and the outputs beyond the inputs number at most 16; then both ends of every internal link have one ID, inputs from outside have different IDs, outputs nobody takes have different IDs, all below 16 |
| MemoryManager.Fabric.LoadBitstreamIfNew | src/dbmstodspi/query_execution/table_data/memory_manager.cpp:38-70 | afterwards the bitstream and the register space are the given ones; loaded again only if either is new |
| MemoryManager.Pool.GetAvailableMemoryBlock | src/dbmstodspi/query_execution/table_data/memory_manager.cpp:72-81 | the block freed last, or a new one if there is none; refused exactly if six are held; the count stays the most ever held at once, and all blocks have the configured size |
| MemoryManager.Pool.AllocateMemoryBlock | src/dbmstodspi/query_execution/table_data/memory_manager.cpp:95-106 | a new block, or none from the seventh on; the count grows either way |
| MemoryManager.Pool.FreeMemoryBlock | src/dbmstodspi/query_execution/table_data/memory_manager.cpp:108-111 | the block goes back to the stack |
| BlockTables.MoveKeepsLocated | src/dbmstodspi/query_execution/scheduling/query_manager.cpp:474-476 | moving a block from an output slot to an empty input slot leaves every block in exactly one place |
| BlockStore.Store.FillInput | src/dbmstodspi/query_execution/scheduling/query_manager.cpp:157-159 | an empty input slot gets a block from the pool, nothing else changes; fails exactly when six are held |
| BlockStore.Store.FillOutput | src/dbmstodspi/query_execution/scheduling/query_manager.cpp:137-140 | the same for an output slot |
| BlockStore.Store.HandOver | src/dbmstodspi/query_execution/scheduling/query_manager.cpp:474-476 | the very block of the output slot is in the input slot afterwards, all others stay |
| BlockStore.Store.DropInputs | src/dbmstodspi/query_execution/scheduling/query_manager.cpp:453-461 | all blocks of the inputs of a node go back, and its vector is gone |
| BlockStore.Store.DropAllOutputs | src/dbmstodspi/query_execution/scheduling/query_manager.cpp:500-508 | all outputs go back and are forgotten |
| MemoryPlan.WaitingAfterRun | src/dbmstodspi/query_execution/scheduling/query_manager.cpp:442-510 | one run later: what its nodes waited for is gone, what its memory links lead to has come |
| MemoryPlan.NothingWaits | src/dbmstodspi/query_execution/scheduling/query_manager.cpp:442-510 | when all consumers have run, no block waits |
| QueryManager.InitialiseVectorSizes | src/dbmstodspi/query_execution/scheduling/query_manager.cpp:71-113 | all nodes of the run and their consumers have vectors with a slot for each link, for blocks and for sizes, the sizes of the outputs being dimensioned by the number of inputs; what was in vectors from earlier runs stays; only pointers inside the run are left |
| NodeSetup.AllocateOutputMemoryBlocks | src/dbmstodspi/query_execution/scheduling/query_manager.cpp:129-145 | exactly the outputs nothing in the run takes get blocks, and every output gets its record size; it stops when six blocks are held, and reaches past the end of the sizes exactly if there are more outputs than inputs |
| NodeSetup.AllocateInputMemoryBlocks | src/dbmstodspi/query_execution/scheduling/query_manager.cpp:146-190 | exactly the inputs nothing in the run feeds have blocks, those handed over by earlier runs and new ones; an input fed inside the run gets the size of the very output that feeds it, one handed over keeps its size, the others get the size that was read; it stops when six blocks are held, or at an output that has left the run |
| NodeSetup.FindOutput | src/dbmstodspi/query_execution/scheduling/query_manager.cpp:179-187 | the scan over the outputs of a producer finds the one that feeds the node, unless some output before it has left the run: then it dereferences a null pointer |
| NodeSetup.FeedingOutput | src/dbmstodspi/query_execution/scheduling/query_manager.cpp:104-107 | which pointers the scan meets is decided by the plan: an output before the one looked for has no consumer left exactly if it leaves the run |
| SetupConditions.PoolIsFull | src/dbmstodspi/query_execution/scheduling/query_manager.cpp:137-140 | with six blocks held in different places, a seventh place cannot be served |
| AcceleratedNodes.CreateStreamParams | src/dbmstodspi/query_execution/scheduling/query_manager.cpp:192-229 | ID, size, block, projection and chunk count of every stream; fails exactly if some of the parameter vectors are missing |
| AcceleratedNodes.StoreStreamResultParameters | src/dbmstodspi/query_execution/scheduling/query_manager.cpp:231-248 | the results to be read are exactly the outputs with a block, each with its ID, file and check flag |
| RunSetup.RunHasShape | src/dbmstodspi/query_execution/scheduling/query_manager.cpp:271-272 | the nodes of a run, once set up, are in the order and shape the stream IDs need |
| RunSetup.DemandIsPlanned | src/dbmstodspi/query_execution/scheduling/query_manager.cpp:271-272 | the number of stream IDs the set-up asks for can be told from the plan |
| RunSetup.NumberedAsPlanned | src/dbmstodspi/query_execution/scheduling/id_manager.cpp:30-101 | seen from the plan, both ends of every link inside the run have one stream ID, and the IDs of all that enters it are different, as are those of all that leaves it |
| RunResults.SetUpIsTold | src/dbmstodspi/query_execution/scheduling/query_manager.cpp:282-295 | what has been set up describes every node of the run: for each stream its ID, its parameters, its size, and the block that is in its place |
| RunSetup.WaitingSizesStay | src/dbmstodspi/query_execution/scheduling/query_manager.cpp:82-88 | setting a run up changes no size that waits for a later run |
| RunSetup.SetupAccelerationNodesForExecution | src/dbmstodspi/query_execution/scheduling/query_manager.cpp:250-300 | a run is set up if and only if the plan lets it: at most 16 streams, no more than six places that need a block, all parameter vectors there, and nothing reached for that is not there; then all nodes have vectors, IDs, blocks, sizes and descriptions; otherwise the status names a condition that fails, the number of streams before all others |
| SetupTheorems.AccessFailsIff | src/dbmstodspi/query_execution/scheduling/query_manager.cpp:92-187 | the set-up of a run reaches for what is not there if and only if some node has more outputs than inputs, or some output that leaves the run comes before one that feeds a node of the run |
| SetupTheorems.SingleOutputsSuffice | src/dbmstodspi/query_execution/scheduling/query_manager.cpp:92-187 | so no run of any schedule does if no node has more outputs than inputs, or more than one |
| BranchingQuery.BranchingFails | src/dbmstodspi/query_execution/scheduling/query_manager.cpp:179-187 | an input for which it does: a join that feeds a sort and then a filter, with bitstreams for the join, the join and the filter, and each alone; every valid schedule has a run whose set-up meets the output to the sort |
| BranchingQuery.NeverExecuted | src/dbmstodspi/query_execution/scheduling/query_manager.cpp:179-187 | so that query is never executed |
| BranchingQuery.ExecuteQuery | src/core/core_execution/execution_manager.cpp:28-39 | the concrete nodes meet all that is assumed of a query, the machine accepts them, and always ends with an error |
| AcceleratedNodes.IsRunValid | src/dbmstodspi/query_execution/scheduling/elastic_module_checker.cpp:25-55 | a run is valid exactly if every merge sort in it has one stream, is configured for it, and has room for its records |
| AcceleratedNodes.ProcessResults | src/dbmstodspi/query_execution/scheduling/query_manager.cpp:415-422 | every output with a result has the record count that was reported under its stream ID, all other sizes stay |
| RunResults.NoteResults | src/dbmstodspi/query_execution/scheduling/query_manager.cpp:404-440 | after a run, every output that leaves it has its record size and the count the FPGA reported for its ID |
| BlockRelease.CurrentLinksAreOfRun | src/dbmstodspi/query_execution/scheduling/query_manager.cpp:36-51 | the current links are the memory links of the run and no others |
| BlockRelease.HandOverNode | src/dbmstodspi/query_execution/scheduling/query_manager.cpp:464-478 | every memory link of a node takes its block, and the size with it, from its output to its consumer |
| BlockRelease.FreeMemoryBlocks | src/dbmstodspi/query_execution/scheduling/query_manager.cpp:442-510 | what is held after a run is exactly what was handed to nodes that still have to run, each block with its size where its own link leads; all other vectors are gone |
| BlockHistory.RunFindsBlocks | src/dbmstodspi/query_execution/scheduling/query_manager.cpp:464-478 | if every block under way is the one its producer wrote, every consumer of the next run finds the very block its producer wrote, and the size noted for it, however many runs ago |
| BlockHistory.RunSendsBlocks | src/dbmstodspi/query_execution/scheduling/query_manager.cpp:442-510 | clearing a run sends its own blocks and sizes on their way and leaves those of earlier runs, still the same, where they wait |
| ExecutionPlan.RunsFollow | src/core/core_execution/execution_manager.cpp:96-101 | each run can be executed once all runs before it have been: what it waits for is there, and nothing it feeds has run |
| ExecutionPlan.ScheduleIsPending | src/core/core_execution/execution_manager.cpp:51-56 | a fresh schedule is ready to be executed from its first run |
| ExecutionManager.NextIsSound | src/core/core_execution/execution_manager.cpp:57-61 | the bitstream lookup for the next run cannot fail |
| ExecutionManager.LoadNextBitstreamIfNew | src/dbmstodspi/query_execution/scheduling/query_manager.cpp:302-308 | the bitstream of the run is loaded with the register space configured for it; fails exactly if there is none |
| ExecutionManager.Manager.ExecuteScheduleState | src/dbmstodspi/query_execution/states/schedule_state.cpp:30-40 | finishes exactly if there is nothing to schedule, and schedules all of it otherwise |
| ExecutionManager.Manager.ExecuteSetupNodesState | src/dbmstodspi/query_execution/states/setup_nodes_state.cpp:30-38 | sets up the next run of the queue, or goes back to scheduling exactly if there is none |
| ExecutionManager.Manager.ExecuteExecuteState | src/dbmstodspi/query_execution/states/execute_state.cpp:31-46 | executes the current run exactly if every merge sort in it has room for its stream; "No nodes ready to execute!" is not reached |
| ExecutionManager.Manager.SetupNextRunData | src/core/core_execution/execution_manager.cpp:57-78 | loads the bitstream of the next run with its register space, and sets the run up; every failure is one of the conditions of the set-up, or a bitstream without a memory size |
| ExecutionManager.Manager.ExecuteAndProcessResults | src/core/core_execution/execution_manager.cpp:79-91 | the run is executed on its own bitstream and register space, the FPGA is told what has been set up, the reported counts are noted, and the run is cleared away |
| ExecutionManager.Manager.Step | src/core/core_execution/execution_manager.cpp:33-38 | every turn of the loop keeps the invariant of the machine and comes closer to the end |
| ExecutionManager.Manager.Execute | src/core/core_execution/execution_manager.cpp:28-39 | always ends: with an error and the condition in the graph, the library or the plan that caused it, or with every run executed once, in queue order, on its own bitstream and register space; then every run could be set up, the FPGA was told of its nodes as the plan demands, every consumer found the very block its producer wrote with the count that was reported for it, held blocks wait for nodes that could not be scheduled, and without cycles all blocks are back in the pool |
| ExecutionManager.AllBlocksAreBack | src/dbmstodspi/query_execution/scheduling/query_manager.cpp:442-510 | after an acyclic graph no block is held, and the free ones are as many as were ever held at once |
| ExecutionTheorems.ReadsWhatWasWritten | src/dbmstodspi/query_execution/scheduling/query_manager.cpp:464-478 | a node fed by an earlier run in memory is told to read the very block that its producer was told to write, with as many records as the FPGA reported for that stream |
| ExecutionTheorems.StreamsMeet | src/dbmstodspi/query_execution/scheduling/id_manager.cpp:58-86 | two linked nodes of one run are told the same stream ID |
| Crossbar.IsInputClashing | src/dbmstodspi/query_execution/fpga_managing/dma_crossbar_specifier.cpp:32-58 | true exactly if two different values of one 16-chunk have one remainder, as C++ divides |
| Crossbar.IsOutputClashing | src/dbmstodspi/query_execution/fpga_managing/dma_crossbar_specifier.cpp:60-97 | true exactly if one column is fed twice from one chunk |
| Crossbar.IsOutputOverwritingData | src/dbmstodspi/query_execution/fpga_managing/dma_crossbar_specifier.cpp:99-118 | true exactly if some chunk is selected from more than 16 times |
| Crossbar.OverwritesIffUnresolvable | src/dbmstodspi/query_execution/fpga_managing/dma_crossbar_specifier.cpp:99-145 | a specification overwrites data if and only if no order of its selections is free of output clashes |
| Crossbar.NoClashNoOverwrite | src/dbmstodspi/query_execution/fpga_managing/dma_crossbar_specifier.cpp:99-118 | the one direction, by counting columns |
| Crossbar.ArrangedDoesNotClash | src/dbmstodspi/query_execution/fpga_managing/dma_crossbar_specifier.cpp:60-97 | the other direction: selections sorted by chunk do not clash |
| Crossbar.ResolveInputClashes | src/dbmstodspi/query_execution/fpga_managing/dma_crossbar_specifier.cpp:121-134 | clashing input specifications become one that selects nothing, others stay |
| Crossbar.ResolveOutputClashesSingleChannel | src/dbmstodspi/query_execution/fpga_managing/dma_crossbar_specifier.cpp:136-145 | "Unresolvable input!" exactly for what no order could resolve; the result never clashes |
| CrossbarExtension.MirrorIsInvolution | src/dbmstodspi/query_execution/fpga_managing/dma_crossbar_specifier.cpp:209-217 | mirroring within a chunk undoes itself |
| CrossbarExtension.Extension.InsertChunkIfFull | src/dbmstodspi/query_execution/fpga_managing/dma_crossbar_specifier.cpp:236-247 | a full chunk is appended back to front, and the buffer emptied |
| CrossbarExtension.Extension.InsertValidRecordData | src/dbmstodspi/query_execution/fpga_managing/dma_crossbar_specifier.cpp:200-223 | the selections of one record are written, moved to its start and mirrored |
| CrossbarExtension.Extension.InsertJunkDataAfterRecord | src/dbmstodspi/query_execution/fpga_managing/dma_crossbar_specifier.cpp:225-234 | junk is written up to the end point |
| CrossbarExtension.IsSpecificationValid | src/dbmstodspi/query_execution/fpga_managing/dma_crossbar_specifier.cpp:249-256 | at most 512 entries, all below 512 |
| CrossbarExtension.ExtendSpecification | src/dbmstodspi/query_execution/fpga_managing/dma_crossbar_specifier.cpp:178-198 | the result is what is written, chunk by chunk back to front; fails exactly if that does not fit |
| CrossbarExtension.ExtensionAt | src/dbmstodspi/query_execution/fpga_managing/dma_crossbar_specifier.cpp:178-247 | the closed form: entry i of record r is at its mirrored index, and holds the mirrored place of its selection in that record, -1, or the junk value; the length is exact |
| CrossbarExtension.ExtensionInNumbers | src/dbmstodspi/query_execution/fpga_managing/dma_crossbar_specifier.cpp:178-247 | the same in numbers: entry k is at 16 * (k / 16) + 15 - k % 16, and a selection x of its record is written as 16 * (x / 16) + 15 - x % 16 |
| CrossbarExtension.EveryIndexIsEntry | src/dbmstodspi/query_execution/fpga_managing/dma_crossbar_specifier.cpp:178-247 | there are no other entries |
| CrossbarExtension.ExtensionKeepsClashes | src/dbmstodspi/query_execution/fpga_managing/dma_crossbar_specifier.cpp:178-247 | the extension clashes if and only if the specification does |
| StreamParameters.NextPowerIsLeast | src/dbmstodspi/query_execution/fpga_managing/stream_parameter_calculator.cpp:81-83 | the least power of two that is not smaller |
| StreamParameters.InputCountIsLargest | src/dbmstodspi/query_execution/fpga_managing/stream_parameter_calculator.cpp:59-66 | the input burst count is the largest power of two up to 32 with which a burst of 512 integers is not exceeded |
| StreamParameters.OutputCountFills | src/dbmstodspi/query_execution/fpga_managing/stream_parameter_calculator.cpp:47-51 | the output burst count times the padded record fills the datapath exactly |
| StreamParameters.OutputCountIsZeroIff | src/dbmstodspi/query_execution/fpga_managing/stream_parameter_calculator.cpp:46-50 | the output burst count is 0 exactly for records of more than 32 chunks |
| StreamParameters.CalculateDDRBurstLength | src/dbmstodspi/query_execution/fpga_managing/stream_parameter_calculator.cpp:74-79 | the fewest cycles of four integers that hold the burst |
| StreamParameters.CalculateChunksPerRecord | src/dbmstodspi/query_execution/fpga_managing/stream_parameter_calculator.cpp:68-72 | the fewest chunks that hold a record |
| StreamParameters.CalculateDMAStreamSetupData | src/dbmstodspi/query_execution/fpga_managing/stream_parameter_calculator.cpp:27-57 | the burst count, the burst length and the chunk IDs of a single-channel stream; the count is 0 exactly for output records of more than 32 chunks |
| StreamParameters.ExtendSpecificationSingleChannel | src/dbmstodspi/query_execution/fpga_managing/dma_crossbar_specifier.cpp:147-153 | the front end for input streams |
| StreamParameters.ExtendSpecificationMultiChannel | src/dbmstodspi/query_execution/fpga_managing/dma_crossbar_specifier.cpp:155-163 | the front end for multi-channel input streams |
| StreamParameters.ExtendOutputSpecification | src/dbmstodspi/query_execution/fpga_managing/dma_crossbar_specifier.cpp:168-176 | the front end for output streams, with -2 where a record ends |
| StreamParameters.BurstFits | src/dbmstodspi/query_execution/fpga_managing/dma_crossbar_specifier.cpp:178-198 | a burst that divides 512 is extended to exactly 512 entries below 512 |
| StreamParameters.InputStreamFits | src/dbmstodspi/query_execution/fpga_managing/stream_parameter_calculator.cpp:59-79 | with its own burst count an input stream is never refused, gets 512 entries, keeps its clashes, and takes 1 to 128 cycles |
| StreamParameters.OutputStreamFits | src/dbmstodspi/query_execution/fpga_managing/stream_parameter_calculator.cpp:47-51 | the same for output streams of up to 32 chunks |
| Dma.DMA.SetControllerParams | src/dbmstodspi/query_execution/fpga_managing/modules/dma.cpp:26-35 | the packed word is written to register 64 + 4 * id for an input and 65536 + 4 * id for an output, where all four fields can be read back |
| Dma.WordDecodes | src/dbmstodspi/query_execution/fpga_managing/modules/dma.cpp:26-35 | the word is a positive 32-bit integer from which all four fields can be read back |
| Dma.RegistersAreApart | src/dbmstodspi/query_execution/fpga_managing/modules/dma.cpp:29-60 | no two stream registers share an address |
| Dma.RegisterNumbers | src/dbmstodspi/query_execution/fpga_managing/modules/dma.cpp:29-60 | the numbers of the stream registers |
| Filter.FilterModule.FilterSetDNFClauseLiteral | src/dbmstodspi/query_execution/fpga_managing/modules/filter.cpp:109-116 | the clause is used and has this literal; everything else stays |
| Filter.FilterModule.ResetDNFStates | src/dbmstodspi/query_execution/fpga_managing/modules/filter.cpp:182-187 | no clause is used, no literal set |
| Filter.FilterModule.PackClauses | src/dbmstodspi/query_execution/fpga_managing/modules/filter.cpp:129-156 | the two masks of a cell |
| Filter.PackedBit | src/dbmstodspi/query_execution/fpga_managing/modules/filter.cpp:129-156 | bit k of a mask says whether clause k is used and accepts the outcome; there are no bits beyond the clauses |
| Filter.MasksAreWords | src/dbmstodspi/query_execution/fpga_managing/modules/filter.cpp:129-164 | masks are 32-bit words |
| Filter.AddressesAreApart | src/dbmstodspi/query_execution/fpga_managing/modules/filter.cpp:157-164 | cell and outcome are determined by the register address |
| Filter.FilterModule.FilterWriteDNFClauseLiteralsToModule | src/dbmstodspi/query_execution/fpga_managing/modules/filter.cpp:118-168 | register 65536 + 4 * position + 128 + 256 * chunk + 8192 * lane has bit k set exactly if clause k is used and its literal is not negative, the register 128 below it exactly if the literal is not positive; no other register changes |
| Filter.WrittenSays | src/dbmstodspi/query_execution/fpga_managing/modules/filter.cpp:129-164 | what the two masks of a cell and their registers mean, clause by clause |
| Filter.WriteOneLiteral | src/dbmstodspi/query_execution/fpga_managing/modules/filter.cpp:118-168 | one positive literal of clause 0: 1 in register 65664, 0 in register 65536 |
| Filter.MasksMeanClauses | src/dbmstodspi/query_execution/fpga_managing/modules/filter.cpp:109-168 | with the registers as they are written, by number, the masks picked by the outcomes, combined, are not zero if and only if some used clause has all its literals satisfied |
| Filter.LiteralsInModule | src/dbmstodspi/query_execution/fpga_managing/modules/filter.cpp:109-116 | a clause with all literals inside the module means just those literals |
| Varchar.ConvertCharStringToAscii | src/dbmstodspi/query_execution/table_data/types_converter.cpp:227-248 | the characters, without one quote at each end if both ends have one, added up to words of four characters, which may be signed; fails exactly if there are none or too many |
| Varchar.WordHolds | src/dbmstodspi/query_execution/table_data/types_converter.cpp:244-247 | word k holds the four characters from 4 * k on, the first in the highest byte |
| Varchar.ConvertStringValuesToString | src/dbmstodspi/query_execution/table_data/types_converter.cpp:167-177 | the words that are not zero are printed in hexadecimal and read back in pairs |
| Varchar.ConvertHexStringToString | src/dbmstodspi/query_execution/table_data/types_converter.cpp:214-225 | two digits at a time, dropping zero bytes |
| Varchar.TextComesBack | src/dbmstodspi/query_execution/table_data/types_converter.cpp:167-248 | a text that fits comes back from its words if and only if every character is kept: at the start of a word none below 16, elsewhere none that is zero or, where characters are signed, negative |
| Varchar.NegativeCharacterChangesText | src/dbmstodspi/query_execution/table_data/types_converter.cpp:244-247 | a text that does not: the negative character takes one away from the letter before it |
| Decimals.ValueOfNumeral | src/dbmstodspi/query_execution/table_data/types_converter.cpp:182 | printing and reading a number are inverse |
| Decimals.StoiOfNumeral | src/dbmstodspi/query_execution/table_data/types_converter.cpp:139 | digits are read as their value exactly if that is in range |
| Decimals.StoiReads | src/dbmstodspi/query_execution/table_data/types_converter.cpp:139 | after space, a sign counts, digits are read up to the first other character, and the value must be a 32-bit integer |
| Decimals.StoiRefuses | src/dbmstodspi/query_execution/table_data/types_converter.cpp:139 | without a digit after space and sign there is no number |
| Decimals.PaddedNumeral | src/dbmstodspi/query_execution/table_data/types_converter.cpp:205-208 | printing what digits denote gives the digits, once leading zeros are back |
| TypesConverter.ConvertDataToIntegers | src/dbmstodspi/query_execution/table_data/types_converter.cpp:75-102 | the words of a cell of an integer, date, null or varchar column |
| TypesConverter.ConvertDataToString | src/dbmstodspi/query_execution/table_data/types_converter.cpp:103-125 | the text of a cell |
| TypesConverter.DateComesBack | src/dbmstodspi/query_execution/table_data/types_converter.cpp:158-212 | every date dddd-dd-dd is stored as the number of its digits and comes back |
| TypesConverter.DateComesBackIff | src/dbmstodspi/query_execution/table_data/types_converter.cpp:158-212 | a cell comes back from a date column exactly if it is printed for a number in range |
| TypesConverter.IntegerComesBackIff | src/dbmstodspi/query_execution/table_data/types_converter.cpp:136-185 | a cell comes back from an integer column exactly if it is the numeral of a non-negative number in range |
| TypesConverter.CellComesBack | src/dbmstodspi/query_execution/table_data/types_converter.cpp:75-248 | a cell takes the words of its column and comes back from them, without the quotes around text, if and only if it is representable: a numeral in range, a date, nothing, or a text that is kept |
| TypesConverter.QuotedCellComesBack | src/dbmstodspi/query_execution/table_data/types_converter.cpp:230-247 | any text in quotes is converted as the text alone, is refused exactly if that is too long, and comes back as the text if and only if all its characters are kept |
| TypesConverter.BareCellComesBack | src/dbmstodspi/query_execution/table_data/types_converter.cpp:230-247 | text that does not have a quote at both ends is converted as it is, and comes back as that if and only if all its characters are kept |
| TypesConverter.NegativeIntegerWraps | src/dbmstodspi/query_execution/table_data/types_converter.cpp:136-140 | a negative integer is stored as its two's complement and printed as a positive number |
| TableConversion.ConvertRecordStringToIntegers | src/dbmstodspi/query_execution/table_data/types_converter.cpp:39-49 | the words of a row are appended, cell by cell; fails exactly if some cell does |
| TableConversion.AddIntegerDataFromStringData | src/dbmstodspi/query_execution/table_data/types_converter.cpp:30-37 | the words of all rows are appended |
| TableConversion.TakeWord | src/dbmstodspi/query_execution/table_data/types_converter.cpp:58-72 | one word: a complete cell goes to the row, a complete row to the result |
| TableConversion.AddStringDataFromIntegerData | src/dbmstodspi/query_execution/table_data/types_converter.cpp:51-73 | decoding word by word gives the rows of splitting the words by the widths of the columns; words beyond the last whole record give none |
| TableConversion.TableComesBack | src/dbmstodspi/query_execution/table_data/types_converter.cpp:30-73 | any number of representable rows come back |
| TableConversion.CellOfTable | src/dbmstodspi/query_execution/table_data/types_converter.cpp:30-73 | what comes back in a table: text without its quotes, every other cell as it was |
| TableConversion.CellWordsAt | src/dbmstodspi/query_execution/table_data/types_converter.cpp:39-49 | the words of a cell start after the widths of the columns before it |
| TableConversion.RowWordsAt | src/dbmstodspi/query_execution/table_data/types_converter.cpp:30-37 | the words of a row start after the rows before it, each as wide as all columns |
| RegionManager.Region.LoadAccel | src/fos/cynq.cpp:314-329 | locks a free region and makes it hold the bitstream; a locked one is refused and unchanged |
| RegionManager.Region.LoadStub | src/fos/cynq.cpp:331-342 | the same for a region controlled from elsewhere |
| RegionManager.Region.UnloadAccel | src/fos/cynq.cpp:344-348 | unlocks; fails exactly if it was not locked |
| RegionManager.PRManager.CanLoadBitstream | src/fos/cynq.cpp:512-523 | exactly if all regions of the bitstream exist and are free |
| RegionManager.PRManager.CanQuickLoadBitstream | src/fos/cynq.cpp:494-509 | exactly if in addition the main region still holds it |
| RegionManager.PRManager.FpgaLoadRegions | src/fos/cynq.cpp:426-430 | succeeds exactly if the bitstream lists no region twice; the regions it lists up to the first repetition are locked in addition and belong to it, controlled from the first of them unless they belonged to it before; the others hold what they held |
| RegionManager.PRManager.FpgaUnloadRegions | src/fos/cynq.cpp:432-436 | exactly the regions of the instance are unlocked; ownership is kept |
| RegionManager.PRManager.FindBitstream | src/fos/cynq.cpp:461-475 | the first bitstream that need not be loaded again, or else the first that can be; and if there is none, whether any belongs on this FPGA |
| RegionManager.PRManager.ChoiceIsUnique | src/fos/cynq.cpp:461-475 | there is only one such bitstream |
| RegionManager.PRManager.FpgaLoad | src/fos/cynq.cpp:452-491 | succeeds exactly if some bitstream has all its regions free and the one that is chosen lists none twice; live instances hold disjoint regions, and those and the lost ones are all that is locked; which of the three errors is reported, which regions are lost, and what all regions hold afterwards is told before the call |
| RegionManager.PRManager.ProgramAccel | src/fos/cynq.cpp:352-360 | the parameters up to the first unknown one are written to their registers, and no other register changes; succeeds exactly if all are registers |
| RegionManager.PRManager.RunAccel | src/fos/cynq.cpp:362-368 | starts exactly if there is a control register, and writes that |
| RegionManager.PRManager.FpgaRun | src/fos/cynq.cpp:439-450 | succeeds exactly if nothing known before the call speaks against it, and fails with the error that does; only registers of the region that controls the chosen bitstream are written; a failed run leaves the locks as they were if and only if it does not leak: it leaks exactly if a bitstream can be loaded, and either that lists a region twice, or all parameters are registers and "control" is not |
| RegionManager.RunningWrites | src/fos/cynq.cpp:352-368 | what a run that succeeds writes: 1 to the control word, to every other word the value of the last parameter whose offset lies in it, and nothing else |
| RegionManager.FailingWrites | src/fos/cynq.cpp:352-368 | what a run that fails has written: the parameters before the first that is no register |
| RegionManager.RunCopy | src/fos/cynq.cpp:439-450 | a concrete run: length 8 at offset 16 and control at offset 0 leave 8 in word 4 and 1 in word 0 |
| RegionManager.RunWithoutControl | src/fos/cynq.cpp:439-450 | an accelerator without a control register: its parameter has been written, its region stays locked without an instance, and the next run finds the FPGA full |

## Left out

- ExecutionManager.Manager.Execute: starts from a manager that has executed nothing; the list of scheduled names is never cleared, so a later query that reuses a node name could have its inputs freed early.
- RunSetup.SetupAccelerationNodesForExecution: too few stream IDs are reported first; which of several other failing conditions is reported is not stated. Undefined behaviour ends the model's execution with a status of its own; what the machine would do after it is not modelled.
- NodeSetup.AllocateInputMemoryBlocks: the sizes that are read for inputs from files are arbitrary, and the record size of a stream is a parameter, a function of its column definitions; files that do not fit into a block are not modelled.
- BlockRelease.HandOverNode: an output has one target, as the scheduler records it; the branch that copies a block to several targets is not reached and not modelled.
- AcceleratedNodes.ProcessResults: the counts only; reading, writing and checking result tables is left out.
- TypesConverter.ConvertDataToIntegers: decimal columns, which go through floating point, are left out; sums of characters wrap around at 32 bits, where the source adds to a signed integer.
- CrossbarExtension.IsSpecificationValid: the largest element of an empty specification is undefined in the source, so there must be one.
- StreamParameters.CalculateDMAStreamSetupData: single-channel streams; the multi-channel burst count comes from the merge-sort setup.
- The memory reuse policy is a parameter of the scheduler; the policy in force is ExternalLinks.ReuseMemory.
- Operation names are an enumeration: the lookup of names that throws for unknown ones is not part of this model.
- What the FPGA computes: it may report any record count for any stream.
- Logging, timing, JSON and INI reading, CSV streams, memory-mapped devices, clocks and bitstream installation.
- Drivers of the other modules (sort, join, arithmetic) and the remaining DMA registers, which would only add easy members.
